/** What a server announces about itself (struct irc_network_info) and the lookups
    libirc/isupport.c answers from it. */
module Info {
  import opened Base
  import opened Casemap

  datatype Flag =
    FNC | MAP | SSL | VBANLIST | OVERRIDE | WALLCHOPS | WALLVOICES | RFC2812 | PENALTY | REMOVE |
    SAFELIST | USERIP | CAPAB | HCN | CPRIVMSG | CNOTICE | KNOCK | VCHANNELS | WHOX | CALLERID |
    ACCEPT | ESILENCE | UHNAMES | NAMESX | SECURELIST

  datatype Number =
    NICKLEN | USERLEN | WATCH | HOSTLEN | CHANNELLEN | AWAYLEN | KICKLEN | TOPICLEN | MAXCHANNELS |
    MAXTARGETS | MAXBANS | MODES | MAXPARA | KEYLEN

  datatype Text = NETWORK | CHARSET | IRCD | CHANLIMIT | STATUSMSG | MAXLIST | IDCHAN

  datatype Letter = EXCEPTS | INVEX | DEAF

  datatype Extban = Extban(prefix: string, supported: Option<string>)

  /** The struct: a flag is set, a number is non-zero, and a text or letter is present
      exactly when it is in the corresponding collection. */
  datatype Info = Info(
    casemapping: Casemapping,
    prefix: string,
    chantypes: Option<string>,
    chanmodes: Option<seq<string>>,
    server: Option<string>,
    userModes: Option<string>,
    channelModes: Option<string>,
    flags: set<Flag>,
    numbers: map<Number, int>,
    texts: map<Text, string>,
    letters: map<Letter, char>,
    silence: bool,
    silenceLimit: int,
    elist: set<char>,
    extban: Option<Extban>)

  const DEFAULT_PREFIX := "(ov)@+"
  const DEFAULT_CHANTYPES := "#&"

  /** network_info_init. */
  const FRESH: Info := Info(Unknown, DEFAULT_PREFIX, Some(DEFAULT_CHANTYPES), None, None, None, None,
                            {}, map[], map[], map[], false, 0, {}, None)

  /** The comparison every lookup in the state rests on. */
  predicate Eq(info: Info, a: string, b: string) { Same(info.casemapping, a, b) }

  /** A name as lookups see it. */
  function Folded(info: Info, name: string): (r: string) { FoldString(Top(info.casemapping), name) }

  // ----------------------------------------------------------------- prefixes

  /** The characters after the closing parenthesis, or all of them without one. */
  function PrefixSymbols(info: Info): (s: string) {
    var e := IndexOf(info.prefix, ')');
    if e == |info.prefix| then info.prefix else info.prefix[e + 1..]
  }

  predicate PrefixOk(info: Info) {
    info.prefix != "" && info.prefix[0] == '(' && ')' in info.prefix
  }

  /** is_prefix on the first character of a name; an empty name starts with NUL. */
  predicate HasPrefix(info: Info, name: string) {
    name != "" && name[0] in PrefixSymbols(info)
  }

  function StripPrefix(info: Info, name: string): (r: string) {
    if HasPrefix(info, name) then name[1..] else name
  }

  /** get_mode_by_prefix; None stands for the NUL it answers when there is no such prefix. */
  function ModeByPrefix(info: Info, p: char): (m: Option<char>) {
    if !PrefixOk(info) then None
    else
      var i := IndexOf(PrefixSymbols(info), p);
      if i < |PrefixSymbols(info)| then Some(info.prefix[i + 1]) else None
  }

  /** The loops of get_prefix_by_mode and get_prefix_from_modes: the symbol at the first
      position whose mode character is in `modes`. */
  function FirstSymbol(prefix: string, symbols: string, modes: set<char>, i: nat): (p: Option<char>)
    requires |symbols| < |prefix|
    decreases |symbols| - i
  {
    if i >= |symbols| then None
    else if prefix[i + 1] in modes then Some(symbols[i])
    else FirstSymbol(prefix, symbols, modes, i + 1)
  }

  function PrefixByMode(info: Info, m: char): (p: Option<char>) {
    if PrefixOk(info) then FirstSymbol(info.prefix, PrefixSymbols(info), {m}, 0) else None
  }

  function PrefixFromModes(info: Info, modes: set<char>): (p: Option<char>) {
    if PrefixOk(info) then FirstSymbol(info.prefix, PrefixSymbols(info), modes, 0) else None
  }

  /** PREFIX=(modes)symbols with halves of equal length and no repetition. */
  predicate MatchedPrefix(info: Info, modes: string, symbols: string) {
    && info.prefix == "(" + modes + ")" + symbols
    && |modes| == |symbols| && ')' !in modes
    && (forall i, j :: 0 <= i < j < |modes| ==> modes[i] != modes[j])
    && (forall i, j :: 0 <= i < j < |symbols| ==> symbols[i] != symbols[j])
  }

  lemma MatchedPrefixParts(info: Info, modes: string, symbols: string)
    requires MatchedPrefix(info, modes, symbols)
    ensures PrefixOk(info) && PrefixSymbols(info) == symbols
    ensures forall i :: 0 <= i < |modes| ==> info.prefix[i + 1] == modes[i]
  {
    var e := |modes| + 1;
    assert info.prefix[..e] == "(" + modes;
    IndexOfIs(info.prefix, ')', e);
    assert info.prefix[e + 1..] == symbols;
    assert info.prefix[e] == ')';
  }

  /** For matched halves the two lookups are inverse to each other. */
  lemma PrefixLookupsInvert(info: Info, modes: string, symbols: string, k: nat)
    requires MatchedPrefix(info, modes, symbols) && k < |modes|
    ensures PrefixByMode(info, modes[k]) == Some(symbols[k])
    ensures ModeByPrefix(info, symbols[k]) == Some(modes[k])
  {
    hide PrefixByMode, ModeByPrefix;
    SymbolOfMode(info, modes, symbols, k);
    ModeOfSymbol(info, modes, symbols, k);
  }

  lemma SymbolOfMode(info: Info, modes: string, symbols: string, k: nat)
    requires MatchedPrefix(info, modes, symbols) && k < |modes|
    ensures PrefixByMode(info, modes[k]) == Some(symbols[k])
  {
    MatchedPrefixParts(info, modes, symbols);
    hide FirstSymbol;
    var j := FirstSymbolFrom(info.prefix, modes, symbols, {modes[k]}, 0);
    assert j == k;
  }

  lemma ModeOfSymbol(info: Info, modes: string, symbols: string, k: nat)
    requires MatchedPrefix(info, modes, symbols) && k < |modes|
    ensures ModeByPrefix(info, symbols[k]) == Some(modes[k])
  {
    MatchedPrefixParts(info, modes, symbols);
    assert forall j :: 0 <= j < k ==> symbols[..k][j] != symbols[k];
    IndexOfIs(symbols, symbols[k], k);
  }

  lemma {:induction false} FirstSymbolFrom(prefix: string, modes: string, symbols: string, has: set<char>, i: nat)
    returns (k: nat)
    requires |symbols| == |modes| < |prefix| && i <= |modes|
    requires forall j :: 0 <= j < |modes| ==> prefix[j + 1] == modes[j]
    ensures i <= k <= |modes|
    ensures forall j :: i <= j < k ==> modes[j] !in has
    ensures k < |modes| ==> modes[k] in has
    ensures FirstSymbol(prefix, symbols, has, i) == if k < |modes| then Some(symbols[k]) else None
    decreases |modes| - i
  {
    k := i;
    if i < |modes| && modes[i] !in has {
      k := FirstSymbolFrom(prefix, modes, symbols, has, i + 1);
    }
  }

  /** get_prefix_from_modes answers the symbol of the leftmost mode a member has. */
  lemma LeftmostPrefix(info: Info, modes: string, symbols: string, has: set<char>) returns (k: nat)
    requires MatchedPrefix(info, modes, symbols)
    ensures k <= |modes|
    ensures forall j :: 0 <= j < k ==> modes[j] !in has
    ensures k < |modes| ==> modes[k] in has
    ensures PrefixFromModes(info, has) == if k < |modes| then Some(symbols[k]) else None
  {
    MatchedPrefixParts(info, modes, symbols);
    k := FirstSymbolFrom(info.prefix, modes, symbols, has, 0);
  }

  // -------------------------------------------------------------- other lookups

  /** is_channelname; strchr finds the terminator of an empty name. */
  predicate IsChannelName(info: Info, name: string)
    requires info.chantypes.Some?
  {
    name == "" || name[0] in info.chantypes.value
  }

  datatype ModeType = UnknownMode | ListMode | SettingMode | OptSettingMode | BoolMode

  const DEFAULT_CHANMODES := ["beI", "k", "l", "imnpsta"]

  function Chanmodes(info: Info): (c: seq<string>) {
    if info.chanmodes.Some? then info.chanmodes.value else DEFAULT_CHANMODES
  }

  /** The lookups below index four groups. */
  predicate ChanmodesOk(info: Info) { |Chanmodes(info)| == 4 }

  /** network_chanmode_type. */
  function ChanmodeType(info: Info, m: char): (t: ModeType)
    requires ChanmodesOk(info)
  {
    var c := Chanmodes(info);
    if m in c[0] then ListMode
    else if m in c[1] then SettingMode
    else if m in c[2] then OptSettingMode
    else if m in c[3] then BoolMode
    else UnknownMode
  }
}
