/** The 005 parameters: network_info_parse and network_info_string of libirc/isupport.c. */
module Isupport {
  import opened Base
  import opened Casemap
  import opened Info

  const MAXINT := 0x7fff_ffff

  // ------------------------------------------------------------ parameter names

  /** One advertised parameter. */
  datatype Key =
    | OfFlag(flag: Flag) | OfNumber(number: Number) | OfText(text: Text) | OfLetter(letter: Letter)
    | CASEMAPPING | SILENCE | CHANTYPES | CHANMODES | ELIST | EXTBAN | PREFIX

  function FlagName(f: Flag): (s: string) {
    match f
    case FNC => "FNC" case MAP => "MAP" case SSL => "SSL" case VBANLIST => "VBANLIST"
    case OVERRIDE => "OVERRIDE" case WALLCHOPS => "WALLCHOPS" case WALLVOICES => "WALLVOICES"
    case RFC2812 => "RFC2812" case PENALTY => "PENALTY" case REMOVE => "REMOVE"
    case SAFELIST => "SAFELIST" case USERIP => "USERIP" case CAPAB => "CAPAB" case HCN => "HCN"
    case CPRIVMSG => "CPRIVMSG" case CNOTICE => "CNOTICE" case KNOCK => "KNOCK"
    case VCHANNELS => "VCHANNELS" case WHOX => "WHOX" case CALLERID => "CALLERID"
    case ACCEPT => "ACCEPT" case ESILENCE => "ESILENCE" case UHNAMES => "UHNAMES"
    case NAMESX => "NAMESX" case SECURELIST => "SECURELIST"
  }

  function NumberName(n: Number): (s: string) {
    match n
    case NICKLEN => "NICKLEN" case USERLEN => "USERLEN" case WATCH => "WATCH"
    case HOSTLEN => "HOSTLEN" case CHANNELLEN => "CHANNELLEN" case AWAYLEN => "AWAYLEN"
    case KICKLEN => "KICKLEN" case TOPICLEN => "TOPICLEN" case MAXCHANNELS => "MAXCHANNELS"
    case MAXTARGETS => "MAXTARGETS" case MAXBANS => "MAXBANS" case MODES => "MODES"
    case MAXPARA => "MAXPARA" case KEYLEN => "KEYLEN"
  }

  function TextName(t: Text): (s: string) {
    match t
    case NETWORK => "NETWORK" case CHARSET => "CHARSET" case IRCD => "IRCD"
    case CHANLIMIT => "CHANLIMIT" case STATUSMSG => "STATUSMSG" case MAXLIST => "MAXLIST"
    case IDCHAN => "IDCHAN"
  }

  function LetterName(l: Letter): (s: string) {
    match l case EXCEPTS => "EXCEPTS" case INVEX => "INVEX" case DEAF => "DEAF"
  }

  function KeyName(k: Key): (s: string) {
    match k
    case OfFlag(f) => FlagName(f)
    case OfNumber(n) => NumberName(n)
    case OfText(t) => TextName(t)
    case OfLetter(l) => LetterName(l)
    case CASEMAPPING => "CASEMAPPING" case SILENCE => "SILENCE" case CHANTYPES => "CHANTYPES"
    case CHANMODES => "CHANMODES" case ELIST => "ELIST" case EXTBAN => "EXTBAN" case PREFIX => "PREFIX"
  }

  // The order network_info_string lists parameters in.
  const ORDER_0: seq<Key> := [
    OfText(NETWORK), CASEMAPPING, OfFlag(FNC), OfFlag(MAP),
    OfFlag(SSL), OfText(CHARSET), OfNumber(NICKLEN), OfNumber(USERLEN)]
  const ORDER_1: seq<Key> := [
    OfNumber(WATCH), OfFlag(VBANLIST), OfFlag(OVERRIDE), OfNumber(HOSTLEN),
    OfNumber(CHANNELLEN), OfNumber(AWAYLEN), OfNumber(KICKLEN), OfNumber(TOPICLEN)]
  const ORDER_2: seq<Key> := [
    OfNumber(MAXCHANNELS), OfNumber(MAXTARGETS), OfNumber(MAXBANS), OfNumber(MODES),
    OfNumber(MAXPARA), OfFlag(WALLCHOPS), OfFlag(WALLVOICES), OfFlag(RFC2812)]
  const ORDER_3: seq<Key> := [
    OfFlag(PENALTY), OfFlag(REMOVE), OfFlag(SAFELIST), OfFlag(USERIP),
    OfFlag(CAPAB), OfFlag(HCN), OfFlag(CPRIVMSG), OfFlag(CNOTICE)]
  const ORDER_4: seq<Key> := [
    OfFlag(KNOCK), OfFlag(VCHANNELS), OfFlag(WHOX), OfFlag(CALLERID),
    OfFlag(ACCEPT), OfFlag(ESILENCE), OfFlag(UHNAMES), OfNumber(KEYLEN)]
  const ORDER_5: seq<Key> := [
    SILENCE, CHANTYPES, OfText(IRCD), CHANMODES,
    OfText(CHANLIMIT), OfFlag(NAMESX), OfFlag(SECURELIST), OfLetter(EXCEPTS)]
  const ORDER_6: seq<Key> := [
    OfText(STATUSMSG), OfLetter(INVEX), ELIST, EXTBAN,
    OfLetter(DEAF), OfText(MAXLIST), OfText(IDCHAN), PREFIX]

  const ORDER: seq<Key> := ORDER_0 + ORDER_1 + ORDER_2 + ORDER_3 + ORDER_4 + ORDER_5 + ORDER_6

  /** The first parameter in `ks` with this name, as the chain of base_strcmp tests finds it. */
  function Lookup(ks: seq<Key>, name: string): (k: Option<Key>)
    ensures k.Some? ==> k.value in ks && AsciiEq(name, KeyName(k.value))
    ensures k.None? ==> forall j :: 0 <= j < |ks| ==> !AsciiEq(name, KeyName(ks[j]))
  {
    if ks == [] then None
    else if AsciiEq(name, KeyName(ks[0])) then Some(ks[0])
    else Lookup(ks[1..], name)
  }

  function KeyOf(name: string): (k: Option<Key>) {
    if AsciiEq(name, "MAXNICKLEN") then Some(OfNumber(NICKLEN))
    else if AsciiEq(name, "MAXCHANNELLEN") then Some(OfNumber(CHANNELLEN))
    else Lookup(ORDER, name)
  }

  // ---------------------------------------------------------------- the names

  /** Upper-case and free of '='. */
  predicate Plain(s: string) { forall k :: 0 <= k < |s| ==> !('a' <= s[k] <= 'z') && s[k] != '=' }

  lemma FlagNamePlain(f: Flag) ensures Plain(FlagName(f)) {}
  lemma NumberNamePlain(n: Number) ensures Plain(NumberName(n)) {}
  lemma TextNamePlain(t: Text) ensures Plain(TextName(t)) {}

  lemma KeyNamePlain(k: Key)
    ensures Plain(KeyName(k))
  {
    match k
    case OfFlag(f) => FlagNamePlain(f);
    case OfNumber(n) => NumberNamePlain(n);
    case OfText(t) => TextNamePlain(t);
    case OfLetter(l) => assert Plain("EXCEPTS") && Plain("INVEX") && Plain("DEAF");
    case CASEMAPPING => case SILENCE => case CHANTYPES => case CHANMODES =>
    case ELIST => case EXTBAN => case PREFIX =>
  }

  lemma {:induction false} AsciiEqOfPlain(a: string, b: string)
    requires Plain(a) && Plain(b) && AsciiEq(a, b)
    ensures a == b
  {
    if a != "" && b != "" {
      AsciiEqOfPlain(a[1..], b[1..]);
      assert a == [a[0]] + a[1..] && b == [b[0]] + b[1..];
    }
  }

  lemma NumberNameUnique(n: Number, j: Key)
    ensures NumberName(n) == KeyName(j) ==> j == OfNumber(n)
    ensures NumberName(n) != "MAXNICKLEN" && NumberName(n) != "MAXCHANNELLEN"
  {}

  lemma TextNameUnique(t: Text, j: Key)
    ensures TextName(t) == KeyName(j) ==> j == OfText(t)
    ensures TextName(t) != "MAXNICKLEN" && TextName(t) != "MAXCHANNELLEN"
  {}

  lemma FlagNamesDistinct(f: Flag, g: Flag)
    ensures FlagName(f) == FlagName(g) ==> f == g
  {}

  lemma FlagNameUnique(f: Flag, j: Key)
    ensures FlagName(f) == KeyName(j) ==> j == OfFlag(f)
    ensures FlagName(f) != "MAXNICKLEN" && FlagName(f) != "MAXCHANNELLEN"
  {
    FlagIsNotAlias(f);
    match j
    case OfFlag(g) => FlagNamesDistinct(f, g);
    case OfNumber(n) => NumberNameUnique(n, OfFlag(f));
    case OfText(t) => TextNameUnique(t, OfFlag(f));
    case _ => FlagIsNotSpecial(f, j);
  }

  lemma FlagIsNotAlias(f: Flag)
    ensures FlagName(f) != "MAXNICKLEN" && FlagName(f) != "MAXCHANNELLEN"
  {}

  lemma FlagIsNotSpecial(f: Flag, j: Key)
    requires !j.OfFlag? && !j.OfNumber? && !j.OfText?
    ensures FlagName(f) != KeyName(j)
  {}

  lemma KeyNamesDistinct(k: Key, j: Key)
    ensures KeyName(k) == KeyName(j) ==> k == j
    ensures KeyName(k) != "MAXNICKLEN" && KeyName(k) != "MAXCHANNELLEN"
  {
    match k
    case OfFlag(f) => FlagNameUnique(f, j);
    case OfNumber(n) => NumberNameUnique(n, j);
    case OfText(t) => TextNameUnique(t, j);
    case _ =>
  }

  lemma InOrder(k: Key)
    ensures k in ORDER
  {
    match k
    case OfText(NETWORK) | CASEMAPPING | OfFlag(FNC) | OfFlag(MAP) |
         OfFlag(SSL) | OfText(CHARSET) | OfNumber(NICKLEN) | OfNumber(USERLEN) =>
      assert k in ORDER_0;
    case OfNumber(WATCH) | OfFlag(VBANLIST) | OfFlag(OVERRIDE) | OfNumber(HOSTLEN) |
         OfNumber(CHANNELLEN) | OfNumber(AWAYLEN) | OfNumber(KICKLEN) | OfNumber(TOPICLEN) =>
      assert k in ORDER_1;
    case OfNumber(MAXCHANNELS) | OfNumber(MAXTARGETS) | OfNumber(MAXBANS) | OfNumber(MODES) |
         OfNumber(MAXPARA) | OfFlag(WALLCHOPS) | OfFlag(WALLVOICES) | OfFlag(RFC2812) =>
      assert k in ORDER_2;
    case OfFlag(PENALTY) | OfFlag(REMOVE) | OfFlag(SAFELIST) | OfFlag(USERIP) |
         OfFlag(CAPAB) | OfFlag(HCN) | OfFlag(CPRIVMSG) | OfFlag(CNOTICE) =>
      assert k in ORDER_3;
    case OfFlag(KNOCK) | OfFlag(VCHANNELS) | OfFlag(WHOX) | OfFlag(CALLERID) |
         OfFlag(ACCEPT) | OfFlag(ESILENCE) | OfFlag(UHNAMES) | OfNumber(KEYLEN) =>
      assert k in ORDER_4;
    case SILENCE | CHANTYPES | OfText(IRCD) | CHANMODES |
         OfText(CHANLIMIT) | OfFlag(NAMESX) | OfFlag(SECURELIST) | OfLetter(EXCEPTS) =>
      assert k in ORDER_5;
    case OfText(STATUSMSG) | OfLetter(INVEX) | ELIST | EXTBAN |
         OfLetter(DEAF) | OfText(MAXLIST) | OfText(IDCHAN) | PREFIX =>
      assert k in ORDER_6;
  }

  /** Every parameter is found under its own name. */
  lemma KeyOfName(k: Key)
    ensures KeyOf(KeyName(k)) == Some(k)
  {
    NotAnAlias(k);
    InOrder(k);
    AsciiEqRefl(KeyName(k));
    FoundIsSame(k, Lookup(ORDER, KeyName(k)).value);
  }

  lemma FoundIsSame(k: Key, j: Key)
    requires AsciiEq(KeyName(k), KeyName(j))
    ensures k == j
  {
    KeyNamePlain(k);
    KeyNamePlain(j);
    AsciiEqOfPlain(KeyName(k), KeyName(j));
    KeyNamesDistinct(k, j);
  }

  lemma NotAnAlias(k: Key)
    ensures !AsciiEq(KeyName(k), "MAXNICKLEN") && !AsciiEq(KeyName(k), "MAXCHANNELLEN")
  {
    KeyNamePlain(k);
    KeyNamesDistinct(k, k);
    AliasesPlain();
    PlainAndDifferent(KeyName(k), "MAXNICKLEN");
    PlainAndDifferent(KeyName(k), "MAXCHANNELLEN");
  }

  lemma AliasesPlain()
    ensures Plain("MAXNICKLEN") && Plain("MAXCHANNELLEN")
  {}

  lemma PlainAndDifferent(a: string, b: string)
    requires Plain(a) && Plain(b) && a != b
    ensures !AsciiEq(a, b)
  {
    if AsciiEq(a, b) { AsciiEqOfPlain(a, b); }
  }

  // ------------------------------------------------------------------- parsing

  /** g_strsplit with at most `n` pieces. */
  function PiecesMax(s: string, sep: char, n: nat): (r: seq<string>)
    requires n >= 1
    ensures 1 <= |r| <= n
  {
    var i := IndexOf(s, sep);
    if n == 1 || i == |s| then [s] else [s[..i]] + PiecesMax(s[i + 1..], sep, n - 1)
  }

  lemma {:induction false} PiecesMaxOfJoin(ps: seq<string>, sep: char)
    requires |ps| >= 1
    requires forall k :: 0 <= k < |ps| - 1 ==> sep !in ps[k]
    ensures PiecesMax(JoinWith(ps, sep), sep, |ps|) == ps
  {
    if |ps| > 1 {
      PiecesMaxOfJoin(ps[1..], sep);
      PiecesMaxStep(ps[0], JoinWith(ps[1..], sep), sep, |ps|);
      assert ps == [ps[0]] + ps[1..];
    }
  }

  lemma PiecesMaxStep(a: string, b: string, sep: char, n: nat)
    requires sep !in a && n >= 2
    ensures PiecesMax(a + [sep] + b, sep, n) == [a] + PiecesMax(b, sep, n - 1)
  {
    var s := a + [sep] + b;
    assert s[..|a|] == a;
    IndexOfIs(s, sep, |a|);
    assert s[|a| + 1..] == b;
  }

  function Unsigned(v: string): (d: string) { if v != "" && (v[0] == '+' || v[0] == '-') then v[1..] else v }

  predicate AllDigits(d: string) { d != "" && forall k :: 0 <= k < |d| ==> IsDigit(d[k]) }

  /** g_ascii_string_to_signed(v, 10, 0, G_MAXINT): the whole value must be a number in range. */
  function StrictNumber(v: string): (n: Option<int>) {
    var n := Atoi(v);
    if AllDigits(Unsigned(v)) && 0 <= n <= MAXINT then Some(n) else None
  }

  function PutNumber(m: map<Number, int>, n: Number, v: int): (r: map<Number, int>) {
    if v == 0 then m - {n} else m[n := v]
  }

  const ELIST_LETTERS: set<char> := {'M', 'N', 'U', 'C', 'T'}

  /** check_chanmodes_inconsistency: modes missing from the 004 line are appended to it. */
  function AddMissing(known: string, modes: string): (r: string)
    decreases |modes|
  {
    if modes == "" then known
    else AddMissing(if modes[0] in known then known else known + [modes[0]], modes[1..])
  }

  function Concat(ss: seq<string>): (r: string) { if ss == [] then "" else ss[0] + Concat(ss[1..]) }

  function SetChanmodes(info: Info, c: seq<string>): (r: Info) {
    info.(chanmodes := Some(c),
          channelModes := if |c| == 4 && info.channelModes.Some?
                          then Some(AddMissing(info.channelModes.value, Concat(c))) else info.channelModes)
  }

  /** The parameters whose missing or empty value the parser does not survive. */
  predicate ValueOk(k: Key, v: Option<string>) {
    match k
    case CASEMAPPING => v.Some?
    case CHANMODES => v.Some?
    case ELIST => v.Some?
    case PREFIX => v.Some?
    case OfNumber(n) => n == KEYLEN ==> v.Some?
    case EXTBAN => v != Some("")
    case _ => true
  }

  function CasemapOf(v: string): (c: Casemapping) {
    if AsciiEq(v, "rfc1459") then Rfc1459
    else if AsciiEq(v, "strict-rfc1459") then StrictRfc1459
    else if AsciiEq(v, "ascii") then Ascii
    else Unknown
  }

  function Assign(info: Info, k: Key, v: Option<string>): (r: Info)
    requires ValueOk(k, v)
  {
    match k
    case OfFlag(f) => info.(flags := info.flags + {f})
    case OfNumber(n) =>
      if n == KEYLEN then info.(numbers := PutNumber(info.numbers, n, Atoi(v.value)))
      else if v.Some? && StrictNumber(v.value).Some? then
        info.(numbers := PutNumber(info.numbers, n, StrictNumber(v.value).value))
      else info
    case OfText(t) => info.(texts := if v.Some? then info.texts[t := v.value] else info.texts - {t})
    case OfLetter(l) =>
      if v.None? then
        info.(letters := info.letters[l := match l case EXCEPTS => 'e' case INVEX => 'I' case DEAF => 'D'])
      else if |v.value| > 1 then info
      else info.(letters := if v.value == "" then info.letters - {l} else info.letters[l := v.value[0]])
    case CASEMAPPING =>
      info.(casemapping := CasemapOf(v.value))
    case SILENCE => info.(silence := true, silenceLimit := if v.Some? then Atoi(v.value) else info.silenceLimit)
    case CHANTYPES => info.(chantypes := v)
    case CHANMODES => SetChanmodes(info, if v.value == "" then [] else PiecesMax(v.value, ',', 4))
    case ELIST => info.(elist := info.elist + set c | c in v.value && c in ELIST_LETTERS)
    case EXTBAN =>
      if v.None? then info.(extban := Some(Extban("~", Some("cqr"))))
      else
        var p := PiecesMax(v.value, ',', 2);
        info.(extban := Some(Extban(p[0], if |p| == 2 then Some(p[1]) else None)))
    case PREFIX =>
      if v.value != "" && (v.value[0] != '(' || ')' !in v.value) then info else info.(prefix := v.value)
  }

  function TokenName(t: string): (s: string) { t[..IndexOf(t, '=')] }

  function TokenValue(t: string): (v: Option<string>) {
    var i := IndexOf(t, '=');
    if i == |t| then None else Some(t[i + 1..])
  }

  predicate TokenOk(t: string) {
    var k := KeyOf(TokenName(t)); k.Some? ==> ValueOk(k.value, TokenValue(t))
  }

  /** network_info_parse; an unknown parameter is ignored. */
  function ParseToken(info: Info, t: string): (r: Info)
    requires TokenOk(t)
  {
    var k := KeyOf(TokenName(t));
    if k.Some? then Assign(info, k.value, TokenValue(t)) else info
  }

  function ParseTokens(info: Info, ts: seq<string>): (r: Info)
    requires forall k :: 0 <= k < |ts| ==> TokenOk(ts[k])
    decreases |ts|
  {
    if ts == [] then info else ParseTokens(ParseToken(info, ts[0]), ts[1..])
  }

  /** The parameter's own text parses to an assignment of its value. */
  lemma ParseOfPair(info: Info, k: Key, v: string)
    requires ValueOk(k, Some(v))
    ensures TokenOk(KeyName(k) + "=" + v) && KeyOf(TokenName(KeyName(k) + "=" + v)) == Some(k)
    ensures ParseToken(info, KeyName(k) + "=" + v) == Assign(info, k, Some(v))
  {
    var t := KeyName(k) + "=" + v;
    KeyNamePlain(k);
    KeyOfName(k);
    assert t[..|KeyName(k)|] == KeyName(k);
    IndexOfIs(t, '=', |KeyName(k)|);
    assert t[|KeyName(k)| + 1..] == v;
  }

  lemma ParseOfName(info: Info, k: Key)
    requires ValueOk(k, None)
    ensures TokenOk(KeyName(k)) && KeyOf(TokenName(KeyName(k))) == Some(k)
    ensures ParseToken(info, KeyName(k)) == Assign(info, k, None)
  {
    var t := KeyName(k);
    KeyNamePlain(k);
    KeyOfName(k);
    IndexOfIs(t, '=', |t|);
    assert t[..|t|] == t;
  }

  // ------------------------------------------------------------------ printing

  function ElistText(e: set<char>): (s: string) {
    (if 'M' in e then "M" else "") + (if 'N' in e then "N" else "") + (if 'U' in e then "U" else "") +
    (if 'C' in e then "C" else "") + (if 'T' in e then "T" else "")
  }

  function CasemapText(c: Casemapping): (s: string) {
    match c
    case StrictRfc1459 => "strict-rfc1459"
    case Ascii => "ascii"
    case Rfc1459 => "rfc1459"
    case Unknown => "rfc1459"
  }

  /** A NULL string in a "%s" conversion. */
  function OrNull(s: Option<string>): (r: string) { if s.Some? then s.value else "(null)" }

  /** What is printed after the name of a parameter: nothing at all, the bare name, or a value. */
  datatype Printed = Absent | Bare | Valued(value: string)

  function PrintedValue(info: Info, k: Key): (p: Printed) {
    match k
    case OfFlag(f) => if f in info.flags then Bare else Absent
    case OfNumber(n) =>
      if n in info.numbers && info.numbers[n] != 0 then Valued(DecInt(info.numbers[n])) else Absent
    case OfText(t) => if t in info.texts then Valued(info.texts[t]) else Absent
    case OfLetter(l) => if l in info.letters then Valued([info.letters[l]]) else Absent
    case CASEMAPPING => Valued(CasemapText(info.casemapping))
    case SILENCE =>
      if !info.silence then Absent else if info.silenceLimit != 0 then Valued(DecInt(info.silenceLimit)) else Bare
    case CHANTYPES => if info.chantypes.Some? then Valued(info.chantypes.value) else Absent
    case CHANMODES => if info.chanmodes.Some? then Valued(JoinWith(info.chanmodes.value, ',')) else Absent
    case ELIST => if info.elist == {} then Absent else Valued(ElistText(info.elist))
    case EXTBAN =>
      if info.extban.Some? then Valued(info.extban.value.prefix + "," + OrNull(info.extban.value.supported)) else Absent
    case PREFIX => Valued(info.prefix)
  }

  function TokenFor(info: Info, k: Key): (t: Option<string>) {
    match PrintedValue(info, k)
    case Absent => None
    case Bare => Some(KeyName(k))
    case Valued(v) => Some(KeyName(k) + "=" + v)
  }

  function TokensFor(info: Info, ks: seq<Key>): (ts: seq<string>)
    ensures forall t :: t in ts <==> exists j :: 0 <= j < |ks| && TokenFor(info, ks[j]) == Some(t)
  {
    if ks == [] then []
    else
      var rest := TokensFor(info, ks[1..]);
      assert forall j :: 1 <= j < |ks| ==> ks[j] == ks[1..][j - 1];
      if TokenFor(info, ks[0]).Some? then [TokenFor(info, ks[0]).value] + rest else rest
  }

  /** list_make_string. */
  method ListMakeString(list: seq<string>) returns (s: string)
    ensures s == JoinWith(list, ' ')
  {
    s := "";
    var i := 0;
    while i < |list|
      invariant i <= |list|
      invariant JoinWith(list, ' ') == s + JoinWith(list[i..], ' ')
    {
      s := s + list[i];
      if i + 1 < |list| { s := s + " "; }
      assert list[i..][1..] == list[i + 1..];
      i := i + 1;
    }
  }

  /** network_info_string. */
  method InfoString(info: Info) returns (s: string)
    ensures s == JoinWith(TokensFor(info, ORDER), ' ')
  {
    s := ListMakeString(TokensFor(info, ORDER));
  }

  // ---------------------------------------------------------------- round trip

  predicate Spaceless(info: Info, k: Key) {
    match PrintedValue(info, k) case Valued(v) => ' ' !in v case _ => true
  }

  /** Values the text form can carry. */
  predicate Advertisable(info: Info) {
    && (forall n :: n in info.numbers && n != KEYLEN ==> 0 <= info.numbers[n] <= MAXINT)
    && info.elist <= ELIST_LETTERS
    && (info.chanmodes.Some? ==> |info.chanmodes.value| == 4)
    && (info.chanmodes.Some? ==> forall i :: 0 <= i < 3 ==> ',' !in info.chanmodes.value[i])
    && (info.extban.Some? ==> ',' !in info.extban.value.prefix && info.extban.value.supported.Some?)
    && (info.prefix == "" || PrefixOk(info))
  }

  ghost function NumbersSeen(m: map<Number, int>, ks: set<Key>): (r: map<Number, int>) {
    map n | n in m && m[n] != 0 && OfNumber(n) in ks :: m[n]
  }

  lemma OneMoreNumber(m: map<Number, int>, ks: set<Key>, n: Number)
    requires n in m && m[n] != 0
    ensures NumbersSeen(m, ks + {OfNumber(n)}) == NumbersSeen(m, ks)[n := m[n]]
  {
    var a, b := NumbersSeen(m, ks)[n := m[n]], NumbersSeen(m, ks + {OfNumber(n)});
    forall x ensures x in b <==> x in a {}
    forall x | x in a ensures x in b && a[x] == b[x] {}
  }

  ghost function FlagsSeen(m: set<Flag>, ks: set<Key>): (r: set<Flag>) { set f | f in m && OfFlag(f) in ks }

  ghost function TextsSeen(m: map<Text, string>, ks: set<Key>): (r: map<Text, string>) {
    map t | t in m && OfText(t) in ks :: m[t]
  }

  ghost function LettersSeen(m: map<Letter, char>, ks: set<Key>): (r: map<Letter, char>) {
    map l | l in m && OfLetter(l) in ks :: m[l]
  }

  lemma OneMoreText(m: map<Text, string>, ks: set<Key>, t: Text)
    requires t in m
    ensures TextsSeen(m, ks + {OfText(t)}) == TextsSeen(m, ks)[t := m[t]]
  {}

  lemma OneMoreLetter(m: map<Letter, char>, ks: set<Key>, l: Letter)
    requires l in m
    ensures LettersSeen(m, ks + {OfLetter(l)}) == LettersSeen(m, ks)[l := m[l]]
  {}

  /** A parameter leaves the collections of the other kinds alone. */
  lemma SeenApart(info: Info, ks: set<Key>, k: Key)
    ensures !k.OfFlag? ==> FlagsSeen(info.flags, ks + {k}) == FlagsSeen(info.flags, ks)
    ensures !k.OfNumber? ==> NumbersSeen(info.numbers, ks + {k}) == NumbersSeen(info.numbers, ks)
    ensures !k.OfText? ==> TextsSeen(info.texts, ks + {k}) == TextsSeen(info.texts, ks)
    ensures !k.OfLetter? ==> LettersSeen(info.letters, ks + {k}) == LettersSeen(info.letters, ks)
  {}

  /** `info` seen through the parameters in `ks` only; everything else as in a fresh struct. */
  ghost function Seen(info: Info, ks: set<Key>): (r: Info) {
    Info(
      if CASEMAPPING !in ks then Unknown else if info.casemapping == Unknown then Rfc1459 else info.casemapping,
      if PREFIX in ks then info.prefix else DEFAULT_PREFIX,
      if CHANTYPES in ks && info.chantypes.Some? then info.chantypes else Some(DEFAULT_CHANTYPES),
      if CHANMODES in ks then info.chanmodes else None,
      None, None, None,
      FlagsSeen(info.flags, ks),
      NumbersSeen(info.numbers, ks),
      TextsSeen(info.texts, ks),
      LettersSeen(info.letters, ks),
      SILENCE in ks && info.silence,
      if SILENCE in ks && info.silence then info.silenceLimit else 0,
      if ELIST in ks then info.elist else {},
      if EXTBAN in ks then info.extban else None)
  }

  /** Parsing the token of one more parameter makes exactly that parameter visible. */
  lemma SeenStep(info: Info, k: Key, ks: set<Key>)
    requires Advertisable(info)
    ensures TokenFor(info, k).None? ==> Seen(info, ks + {k}) == Seen(info, ks)
    ensures TokenFor(info, k).Some? ==>
            TokenOk(TokenFor(info, k).value) && KeyOf(TokenName(TokenFor(info, k).value)) == Some(k) &&
            ParseToken(Seen(info, ks), TokenFor(info, k).value) == Seen(info, ks + {k})
  {
    var a, b := Seen(info, ks), Seen(info, ks + {k});
    match PrintedValue(info, k) {
      case Absent => SeenAbsent(info, k, ks);
      case Bare => ParseOfName(a, k); SeenBare(info, k, ks);
      case Valued(v) =>
        AssignValued(info, k, ks, v);
        ParseOfPair(a, k, v);
    }
  }

  lemma SeenAbsent(info: Info, k: Key, ks: set<Key>)
    requires PrintedValue(info, k).Absent?
    ensures Seen(info, ks + {k}) == Seen(info, ks)
  {
    var a, b := Seen(info, ks), Seen(info, ks + {k});
    assert a.flags == b.flags;
    assert a.numbers == b.numbers;
    assert a.texts == b.texts;
    assert a.letters == b.letters;
  }

  lemma SeenBare(info: Info, k: Key, ks: set<Key>)
    requires PrintedValue(info, k).Bare?
    ensures ValueOk(k, None) && Assign(Seen(info, ks), k, None) == Seen(info, ks + {k})
  {
    var a, b := Seen(info, ks), Seen(info, ks + {k});
    assert b.flags == if k.OfFlag? then a.flags + {k.flag} else a.flags;
    assert a.numbers == b.numbers;
    assert a.texts == b.texts;
    assert a.letters == b.letters;
  }

  lemma AssignValued(info: Info, k: Key, ks: set<Key>, v: string)
    requires Advertisable(info) && PrintedValue(info, k) == Valued(v)
    ensures ValueOk(k, Some(v)) && Assign(Seen(info, ks), k, Some(v)) == Seen(info, ks + {k})
  {
    match k
    case OfNumber(n) =>
      AtoiOfPrinted(info.numbers[n]);
      if n != KEYLEN { StrictOfPrinted(info.numbers[n]); }
      AssignNumber(info, n, ks, v);
    case OfText(_) => AssignText(info, k, ks, v);
    case OfLetter(_) => AssignText(info, k, ks, v);
    case OfFlag(_) =>
    case _ => AssignSpecial(info, k, ks, v);
  }

  lemma AssignSpecial(info: Info, k: Key, ks: set<Key>, v: string)
    requires Advertisable(info) && PrintedValue(info, k) == Valued(v)
    requires !k.OfFlag? && !k.OfNumber? && !k.OfText? && !k.OfLetter?
    ensures ValueOk(k, Some(v)) && Assign(Seen(info, ks), k, Some(v)) == Seen(info, ks + {k})
  {
    match k
    case SILENCE => AtoiOfPrinted(info.silenceLimit); AssignSilence(info, ks, v);
    case CHANMODES =>
      PiecesMaxOfJoin(info.chanmodes.value, ',');
      assert |v| >= 1;
      AssignChanmodes(info, ks, v);
    case EXTBAN =>
      var x := info.extban.value;
      assert JoinWith([x.prefix, x.supported.value], ',') == v;
      PiecesMaxOfJoin([x.prefix, x.supported.value], ',');
      AssignExtban(info, ks, v);
    case ELIST => SeenSpecial(info, k, ks); ElistSurvives(info.elist);
    case CASEMAPPING => CasemapSurvives(info.casemapping); AssignCasemapping(info, ks, v);
    case CHANTYPES => SeenSpecial(info, k, ks);
    case PREFIX => SeenSpecial(info, k, ks);
  }

  lemma AssignCasemapping(info: Info, ks: set<Key>, v: string)
    requires CasemapOf(v) == if info.casemapping == Unknown then Rfc1459 else info.casemapping
    ensures Assign(Seen(info, ks), CASEMAPPING, Some(v)) == Seen(info, ks + {CASEMAPPING})
  {
    SeenSpecial(info, CASEMAPPING, ks);
  }

  lemma AssignSilence(info: Info, ks: set<Key>, v: string)
    requires info.silence && Atoi(v) == info.silenceLimit
    ensures Assign(Seen(info, ks), SILENCE, Some(v)) == Seen(info, ks + {SILENCE})
  {
    SeenSpecial(info, SILENCE, ks);
  }

  lemma AssignChanmodes(info: Info, ks: set<Key>, v: string)
    requires info.chanmodes.Some? && v != "" && PiecesMax(v, ',', 4) == info.chanmodes.value
    ensures Assign(Seen(info, ks), CHANMODES, Some(v)) == Seen(info, ks + {CHANMODES})
  {
    SeenSpecial(info, CHANMODES, ks);
  }

  lemma AssignExtban(info: Info, ks: set<Key>, v: string)
    requires info.extban.Some? && info.extban.value.supported.Some? && v != ""
    requires PiecesMax(v, ',', 2) == [info.extban.value.prefix, info.extban.value.supported.value]
    ensures Assign(Seen(info, ks), EXTBAN, Some(v)) == Seen(info, ks + {EXTBAN})
  {
    SeenSpecial(info, EXTBAN, ks);
  }

  lemma AtoiOfPrinted(n: int)
    ensures Atoi(DecInt(n)) == n
  {
    AtoiOfDecInt(n, "");
    assert DecInt(n) + "" == DecInt(n);
  }

  lemma StrictOfPrinted(n: int)
    requires 0 <= n <= MAXINT
    ensures StrictNumber(DecInt(n)) == Some(n)
  {
    AtoiOfPrinted(n);
    assert IsDigit(DecInt(n)[0]);
  }

  /** A parameter with a field of its own leaves the four collections alone. */
  lemma SeenSpecial(info: Info, k: Key, ks: set<Key>)
    requires !k.OfFlag? && !k.OfNumber? && !k.OfText? && !k.OfLetter?
    ensures var a, b := Seen(info, ks), Seen(info, ks + {k});
            a.flags == b.flags && a.numbers == b.numbers && a.texts == b.texts && a.letters == b.letters
  {
    hide FlagsSeen, NumbersSeen, TextsSeen, LettersSeen;
    SeenApart(info, ks, k);
  }

  lemma AssignNumber(info: Info, n: Number, ks: set<Key>, v: string)
    requires n in info.numbers && info.numbers[n] != 0 && Atoi(v) == info.numbers[n]
    requires n != KEYLEN ==> StrictNumber(v) == Some(info.numbers[n])
    ensures Assign(Seen(info, ks), OfNumber(n), Some(v)) == Seen(info, ks + {OfNumber(n)})
  {
    SeenNumber(info, n, ks);
  }

  lemma SeenNumber(info: Info, n: Number, ks: set<Key>)
    requires n in info.numbers && info.numbers[n] != 0
    ensures var a := Seen(info, ks);
            Seen(info, ks + {OfNumber(n)}) == a.(numbers := a.numbers[n := info.numbers[n]])
  {
    hide FlagsSeen, NumbersSeen, TextsSeen, LettersSeen;
    SeenApart(info, ks, OfNumber(n));
    OneMoreNumber(info.numbers, ks, n);
  }

  lemma AssignText(info: Info, k: Key, ks: set<Key>, v: string)
    requires (k.OfText? || k.OfLetter?) && PrintedValue(info, k) == Valued(v)
    ensures Assign(Seen(info, ks), k, Some(v)) == Seen(info, ks + {k})
  {
    hide FlagsSeen, NumbersSeen, TextsSeen, LettersSeen;
    SeenApart(info, ks, k);
    if k.OfText? {
      OneMoreText(info.texts, ks, k.text);
    } else {
      OneMoreLetter(info.letters, ks, k.letter);
    }
  }

  lemma ElistSurvives(e: set<char>)
    requires e <= ELIST_LETTERS
    ensures (set c | c in ElistText(e) && c in ELIST_LETTERS) == e
  {}

  lemma CasemapSurvives(c: Casemapping)
    ensures CasemapOf(CasemapText(c)) == if c == Unknown then Rfc1459 else c
  {
    match c
    case Ascii =>
      AsciiEqRefl("ascii");
      AsciiNe("ascii", "rfc1459");
      AsciiNe("ascii", "strict-rfc1459");
    case StrictRfc1459 =>
      AsciiEqRefl("strict-rfc1459");
      AsciiNe("strict-rfc1459", "rfc1459");
    case _ => AsciiEqRefl("rfc1459");
  }

  /** The parameters a list of tokens is about. */
  ghost function KeysIn(ts: seq<string>): (ks: set<Key>)
    ensures forall t :: t in ts && KeyOf(TokenName(t)).Some? ==> KeyOf(TokenName(t)).value in ks
  {
    if ts == [] then {}
    else
      var k := KeyOf(TokenName(ts[0]));
      assert ts == [ts[0]] + ts[1..];
      (if k.Some? then {k.value} else {}) + KeysIn(ts[1..])
  }

  /** Tokens that network_info_string prints for `info`, in any order and number. */
  ghost predicate TokensOf(info: Info, ts: seq<string>) {
    forall j :: 0 <= j < |ts| ==> ts[j] in TokensFor(info, ORDER)
  }

  lemma TokenIsOk(info: Info, t: string) returns (k: Key)
    requires Advertisable(info) && t in TokensFor(info, ORDER)
    ensures TokenFor(info, k) == Some(t)
  {
    var i :| 0 <= i < |ORDER| && TokenFor(info, ORDER[i]) == Some(t);
    k := ORDER[i];
  }

  lemma TokensAreOk(info: Info, ts: seq<string>)
    requires Advertisable(info) && TokensOf(info, ts)
    ensures forall j :: 0 <= j < |ts| ==> TokenOk(ts[j])
  {
    forall j | 0 <= j < |ts|
      ensures TokenOk(ts[j])
    {
      var k := TokenIsOk(info, ts[j]);
      SeenStep(info, k, {});
    }
  }

  /** Each token adds its own parameter and nothing else, whatever the order. */
  lemma {:induction false} ParseAccumulates(info: Info, ks: set<Key>, ts: seq<string>)
    requires Advertisable(info) && TokensOf(info, ts)
    requires forall j :: 0 <= j < |ts| ==> TokenOk(ts[j])
    ensures ParseTokens(Seen(info, ks), ts) == Seen(info, ks + KeysIn(ts))
    decreases |ts|
  {
    if ts == [] {
      assert ks + {} == ks;
    } else {
      var k := TokenIsOk(info, ts[0]);
      SeenStep(info, k, ks);
      ParseAccumulates(info, ks + {k}, ts[1..]);
      assert ks + {k} + KeysIn(ts[1..]) == ks + KeysIn(ts);
    }
  }

  /** Everything that is advertised, as a receiver who starts from a fresh struct can know it:
      an unknown casemapping reads back as rfc1459, and what 005 does not carry stays fresh. */
  ghost function Advertised(info: Info): (r: Info) { Seen(info, set k | k in ORDER) }

  /** Parameters that print nothing may be counted as seen or not. */
  lemma {:induction false} SeenMore(info: Info, ks: set<Key>, more: seq<Key>)
    requires forall j :: 0 <= j < |more| ==> more[j] in ks || PrintedValue(info, more[j]).Absent?
    ensures Seen(info, ks + set k | k in more) == Seen(info, ks)
    decreases |more|
  {
    if more == [] {
      assert ks + (set k | k in more) == ks;
    } else {
      var k, rest := more[0], more[1..];
      if k in ks { assert ks + {k} == ks; } else { SeenAbsent(info, k, ks); }
      SeenMore(info, ks + {k}, rest);
      assert more == [k] + rest;
      assert ks + {k} + (set k | k in rest) == ks + (set k | k in more);
    }
  }

  lemma SeenAll(info: Info, ks: set<Key>)
    requires forall k: Key :: TokenFor(info, k).Some? ==> k in ks
    ensures Seen(info, ks) == Advertised(info)
  {
    assert forall j :: 0 <= j < |ORDER| ==> ORDER[j] in ks || PrintedValue(info, ORDER[j]).Absent? by {
      forall j | 0 <= j < |ORDER|
        ensures ORDER[j] in ks || PrintedValue(info, ORDER[j]).Absent?
      {
        assert TokenFor(info, ORDER[j]).Some? || PrintedValue(info, ORDER[j]).Absent?;
      }
    }
    SeenMore(info, ks, ORDER);
    forall k | k in ks ensures k in ORDER { InOrder(k); }
    assert ks + (set k | k in ORDER) == set k | k in ORDER;
  }

  /** Parsing all tokens of `info` in any order restores everything it advertises. */
  lemma RoundTripInAnyOrder(info: Info, ts: seq<string>)
    requires Advertisable(info)
    requires forall t :: t in ts <==> t in TokensFor(info, ORDER)
    ensures forall j :: 0 <= j < |ts| ==> TokenOk(ts[j])
    ensures ParseTokens(FRESH, ts) == Advertised(info)
  {
    assert TokensOf(info, ts) by { assert forall j :: 0 <= j < |ts| ==> ts[j] in ts; }
    TokensAreOk(info, ts);
    SeenNothing(info);
    ParseAccumulates(info, {}, ts);
    assert {} + KeysIn(ts) == KeysIn(ts);
    forall k: Key | TokenFor(info, k).Some?
      ensures k in KeysIn(ts)
    {
      TokenIsListed(info, k);
    }
    SeenAll(info, KeysIn(ts));
  }

  lemma SeenNothing(info: Info)
    ensures Seen(info, {}) == FRESH
  {
    var r := Seen(info, {});
    assert r.flags == {};
    assert r.numbers == map[];
    assert r.texts == map[];
    assert r.letters == map[];
  }

  lemma TokenIsListed(info: Info, k: Key)
    requires Advertisable(info) && TokenFor(info, k).Some?
    ensures TokenFor(info, k).value in TokensFor(info, ORDER)
    ensures KeyOf(TokenName(TokenFor(info, k).value)) == Some(k)
  {
    InOrder(k);
    SeenStep(info, k, {});
    var j :| 0 <= j < |ORDER| && ORDER[j] == k;
    assert TokenFor(info, ORDER[j]) == Some(TokenFor(info, k).value);
  }

  /** Splitting the printed string on spaces gives its tokens back, for values without spaces. */
  lemma SplitOfInfoString(info: Info)
    requires forall k: Key :: Spaceless(info, k)
    ensures StrSplit(JoinWith(TokensFor(info, ORDER), ' '), ' ') == TokensFor(info, ORDER)
  {
    var ts := TokensFor(info, ORDER);
    forall j | 0 <= j < |ts|
      ensures ' ' !in ts[j]
    {
      assert ts[j] in ts;
      var i :| 0 <= i < |ORDER| && TokenFor(info, ORDER[i]) == Some(ts[j]);
      NameHasNoSpace(ORDER[i]);
      assert Spaceless(info, ORDER[i]);
    }
    var c := KeyName(CASEMAPPING) + "=" + CasemapText(info.casemapping);
    InOrder(CASEMAPPING);
    var at :| 0 <= at < |ORDER| && ORDER[at] == CASEMAPPING;
    assert TokenFor(info, ORDER[at]) == Some(c);
    assert c in ts;
    PiecesOfJoin(ts, ' ');
    JoinNonEmpty(ts, ' ', c);
  }

  lemma NameHasNoSpace(k: Key)
    ensures ' ' !in KeyName(k)
  {
    match k
    case OfFlag(f) => FlagNameNoSpace(f);
    case OfNumber(n) => NumberNameNoSpace(n);
    case OfText(_) => case OfLetter(_) =>
    case CASEMAPPING => case SILENCE => case CHANTYPES => case CHANMODES =>
    case ELIST => case EXTBAN => case PREFIX =>
  }

  lemma FlagNameNoSpace(f: Flag) ensures ' ' !in FlagName(f) {}
  lemma NumberNameNoSpace(n: Number) ensures ' ' !in NumberName(n) {}

  lemma {:induction false} JoinNonEmpty(ps: seq<string>, sep: char, x: string)
    requires x in ps && x != ""
    ensures JoinWith(ps, sep) != ""
  {
    if |ps| == 1 { assert ps[0] == x; }
  }
}
