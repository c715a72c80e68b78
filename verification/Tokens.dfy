/** What the 005 parameters do, stated on the words a server sends. */
module Tokens {
  import opened Base
  import opened Casemap
  import opened Info
  import opened Isupport

  const FLAG_WORDS: map<string, Flag> := map[
    "FNC" := FNC, "MAP" := MAP, "SSL" := SSL, "VBANLIST" := VBANLIST, "OVERRIDE" := OVERRIDE,
    "WALLCHOPS" := WALLCHOPS, "WALLVOICES" := WALLVOICES, "RFC2812" := RFC2812, "PENALTY" := PENALTY,
    "REMOVE" := REMOVE, "SAFELIST" := SAFELIST, "USERIP" := USERIP, "CAPAB" := CAPAB, "HCN" := HCN,
    "CPRIVMSG" := CPRIVMSG, "CNOTICE" := CNOTICE, "KNOCK" := KNOCK, "VCHANNELS" := VCHANNELS, "WHOX" := WHOX,
    "CALLERID" := CALLERID, "ACCEPT" := ACCEPT, "ESILENCE" := ESILENCE, "UHNAMES" := UHNAMES,
    "NAMESX" := NAMESX, "SECURELIST" := SECURELIST]

  const NUMBER_WORDS: map<string, Number> := map[
    "NICKLEN" := NICKLEN, "USERLEN" := USERLEN, "HOSTLEN" := HOSTLEN, "CHANNELLEN" := CHANNELLEN,
    "AWAYLEN" := AWAYLEN, "KICKLEN" := KICKLEN, "TOPICLEN" := TOPICLEN, "WATCH" := WATCH, "MAXPARA" := MAXPARA,
    "MAXCHANNELS" := MAXCHANNELS, "MAXTARGETS" := MAXTARGETS, "MAXBANS" := MAXBANS, "MODES" := MODES,
    "KEYLEN" := KEYLEN]

  const TEXT_WORDS: map<string, Text> := map[
    "NETWORK" := NETWORK, "IRCD" := IRCD, "CHARSET" := CHARSET, "CHANLIMIT" := CHANLIMIT, "MAXLIST" := MAXLIST,
    "IDCHAN" := IDCHAN, "STATUSMSG" := STATUSMSG]

  // The letter a bare parameter stands for.
  const LETTER_WORDS: map<string, (Letter, char)> := map[
    "EXCEPTS" := (EXCEPTS, 'e'), "INVEX" := (INVEX, 'I'), "DEAF" := (DEAF, 'D')]

  // ---------------------------------------------------------------- names in any case

  lemma {:induction false} NoEquals(a: string, b: string)
    requires AsciiEq(a, b) && '=' !in b
    ensures '=' !in a
  {
    if a != "" && b != "" {
      assert a == [a[0]] + a[1..] && b == [b[0]] + b[1..];
      NoEquals(a[1..], b[1..]);
    }
  }

  /** A parameter is found under its name, in any case. */
  lemma FoundInAnyCase(name: string, k: Key)
    requires AsciiEq(name, KeyName(k))
    ensures KeyOf(name) == Some(k) && '=' !in name
  {
    hide KeyName;
    KeyNamePlain(k);
    NoEquals(name, KeyName(k));
    NotAnAlias(k);
    AsciiEqTrans(name, KeyName(k), "MAXNICKLEN");
    AsciiEqTrans(name, KeyName(k), "MAXCHANNELLEN");
    InOrder(k);
    var f := Lookup(ORDER, name);
    assert f.Some?;
    AsciiEqTrans(name, KeyName(k), KeyName(f.value));
    FoundIsSame(k, f.value);
  }

  lemma ValueRead(info: Info, name: string, k: Key, v: string)
    requires AsciiEq(name, KeyName(k)) && ValueOk(k, Some(v))
    ensures TokenOk(name + "=" + v) && ParseToken(info, name + "=" + v) == Assign(info, k, Some(v))
  {
    hide KeyName, KeyOf, Assign, ValueOk, AsciiEq;
    FoundInAnyCase(name, k);
    SplitHere(name, v);
  }

  lemma SplitHere(name: string, v: string)
    requires '=' !in name
    ensures TokenName(name + "=" + v) == name && TokenValue(name + "=" + v) == Some(v)
  {
    var t := name + "=" + v;
    assert t[..|name|] == name && t[|name| + 1..] == v;
    IndexOfIs(t, '=', |name|);
  }

  lemma BareRead(info: Info, name: string, k: Key)
    requires AsciiEq(name, KeyName(k)) && ValueOk(k, None)
    ensures TokenOk(name) && ParseToken(info, name) == Assign(info, k, None)
  {
    hide KeyName, KeyOf, Assign, ValueOk, AsciiEq;
    FoundInAnyCase(name, k);
    IndexOfIs(name, '=', |name|);
    assert name[..|name|] == name;
  }

  // --------------------------------------------------------------------- the families

  /** A flag is set, with or without a value. */
  lemma FlagToken(info: Info, word: string, name: string, v: string)
    requires word in FLAG_WORDS && AsciiEq(name, word)
    ensures TokenOk(name) && ParseToken(info, name) == info.(flags := info.flags + {FLAG_WORDS[word]})
    ensures TokenOk(name + "=" + v) && ParseToken(info, name + "=" + v) == ParseToken(info, name)
  {
    var k := OfFlag(FLAG_WORDS[word]);
    assert KeyName(k) == word by { FlagWord(word); }
    hide KeyName, KeyOf, TokenOk, ParseToken, AsciiEq;
    BareRead(info, name, k);
    ValueRead(info, name, k, v);
  }

  lemma FlagWord(word: string)
    requires word in FLAG_WORDS
    ensures FlagName(FLAG_WORDS[word]) == word
  {}

  /** A number from 0 to 0x7fffffff is kept, and 0 is none at all. */
  lemma NumberToken(info: Info, word: string, name: string, n: int)
    requires word in NUMBER_WORDS && AsciiEq(name, word) && 0 <= n <= MAXINT
    ensures TokenOk(name + "=" + DecInt(n))
    ensures var field := NUMBER_WORDS[word];
            ParseToken(info, name + "=" + DecInt(n)) ==
            info.(numbers := if n == 0 then info.numbers - {field} else info.numbers[field := n])
  {
    var k := OfNumber(NUMBER_WORDS[word]);
    assert KeyName(k) == word by { NumberWord(word); }
    AtoiOfPrinted(n);
    StrictOfPrinted(n);
    hide KeyName, KeyOf, TokenOk, ParseToken, AsciiEq, DecInt, Atoi, StrictNumber;
    ValueRead(info, name, k, DecInt(n));
  }

  lemma NumberWord(word: string)
    requires word in NUMBER_WORDS
    ensures NumberName(NUMBER_WORDS[word]) == word
  {}

  /** A value that is not a number all the way is refused, except for KEYLEN. */
  lemma NoNumberToken(info: Info, word: string, name: string, v: string)
    requires word in NUMBER_WORDS && word != "KEYLEN" && AsciiEq(name, word)
    requires v == "" || v == "+" || v == "-" || exists k :: 1 <= k < |v| && !IsDigit(v[k])
    ensures TokenOk(name + "=" + v) && ParseToken(info, name + "=" + v) == info
    ensures TokenOk(name) && ParseToken(info, name) == info
  {
    var k := OfNumber(NUMBER_WORDS[word]);
    assert KeyName(k) == word && NUMBER_WORDS[word] != KEYLEN by { NumberWord(word); }
    NotStrict(v);
    hide KeyName, KeyOf, TokenOk, ParseToken, AsciiEq, Atoi, StrictNumber;
    BareRead(info, name, k);
    ValueRead(info, name, k, v);
  }

  lemma NotStrict(v: string)
    requires v == "" || v == "+" || v == "-" || exists k :: 1 <= k < |v| && !IsDigit(v[k])
    ensures StrictNumber(v) == None
  {
    if v != "" && v != "+" && v != "-" {
      var k :| 1 <= k < |v| && !IsDigit(v[k]);
      var d := Unsigned(v);
      assert d[if |d| == |v| then k else k - 1] == v[k];
    }
  }

  /** Two parameters have another name as well. */
  lemma AliasToken(info: Info, name: string, v: string)
    requires AsciiEq(name, "MAXNICKLEN") || AsciiEq(name, "MAXCHANNELLEN")
    ensures var word := if AsciiEq(name, "MAXNICKLEN") then "NICKLEN" else "CHANNELLEN";
            && TokenOk(name + "=" + v) && TokenOk(word + "=" + v)
            && ParseToken(info, name + "=" + v) == ParseToken(info, word + "=" + v)
  {
    var nick := AsciiEq(name, "MAXNICKLEN");
    var word, k := if nick then "NICKLEN" else "CHANNELLEN", OfNumber(if nick then NICKLEN else CHANNELLEN);
    assert KeyName(k) == word && ValueOk(k, Some(v));
    AsciiEqRefl(word);
    AliasesPlain();
    NoEquals(name, if nick then "MAXNICKLEN" else "MAXCHANNELLEN");
    assert KeyOf(name) == Some(k);
    hide KeyName, KeyOf, Assign, AsciiEq;
    ValueRead(info, word, k, v);
    SplitHere(name, v);
  }

  /** A text is kept as it is; without a value it is forgotten. */
  lemma TextToken(info: Info, word: string, name: string, v: string)
    requires word in TEXT_WORDS && AsciiEq(name, word)
    ensures TokenOk(name + "=" + v)
    ensures ParseToken(info, name + "=" + v) == info.(texts := info.texts[TEXT_WORDS[word] := v])
    ensures TokenOk(name) && ParseToken(info, name) == info.(texts := info.texts - {TEXT_WORDS[word]})
  {
    var k := OfText(TEXT_WORDS[word]);
    assert KeyName(k) == word by { TextWord(word); }
    hide KeyName, KeyOf, TokenOk, ParseToken, AsciiEq;
    BareRead(info, name, k);
    ValueRead(info, name, k, v);
  }

  lemma TextWord(word: string)
    requires word in TEXT_WORDS
    ensures TextName(TEXT_WORDS[word]) == word
  {}

  /** EXCEPTS, INVEX and DEAF alone stand for 'e', 'I' and 'D'; a value of one character is that letter, an
      empty one none, and a longer one is refused. */
  lemma LetterToken(info: Info, word: string, name: string, v: string)
    requires word in LETTER_WORDS && AsciiEq(name, word)
    ensures var (field, letter) := LETTER_WORDS[word];
            && TokenOk(name) && ParseToken(info, name) == info.(letters := info.letters[field := letter])
            && TokenOk(name + "=" + v)
            && ParseToken(info, name + "=" + v) ==
               if |v| > 1 then info
               else info.(letters := if v == "" then info.letters - {field} else info.letters[field := v[0]])
  {
    var k := OfLetter(LETTER_WORDS[word].0);
    assert KeyName(k) == word;
    hide KeyName, KeyOf, TokenOk, ParseToken, AsciiEq;
    BareRead(info, name, k);
    ValueRead(info, name, k, v);
  }

  // ------------------------------------------------------------------- the others

  /** A casemapping that is not one of the three is unknown. */
  lemma CasemappingToken(info: Info, name: string, v: string)
    requires AsciiEq(name, "CASEMAPPING")
    ensures TokenOk(name + "=" + v)
    ensures var r := ParseToken(info, name + "=" + v);
            && r == info.(casemapping := r.casemapping)
            && (r.casemapping == Ascii <==> AsciiEq(v, "ascii"))
            && (r.casemapping == Rfc1459 <==> AsciiEq(v, "rfc1459"))
            && (r.casemapping == StrictRfc1459 <==> AsciiEq(v, "strict-rfc1459"))
  {
    OnlyOneMapping(v);
    assert KeyName(CASEMAPPING) == "CASEMAPPING";
    hide KeyName, KeyOf, TokenOk, ParseToken, AsciiEq;
    ValueRead(info, name, CASEMAPPING, v);
  }

  lemma OnlyOneMapping(v: string)
    ensures !(AsciiEq(v, "rfc1459") && AsciiEq(v, "strict-rfc1459"))
    ensures !(AsciiEq(v, "rfc1459") && AsciiEq(v, "ascii")) && !(AsciiEq(v, "strict-rfc1459") && AsciiEq(v, "ascii"))
  {
    AsciiEqLength(v, "rfc1459");
    AsciiEqLength(v, "strict-rfc1459");
    AsciiEqLength(v, "ascii");
  }

  /** PREFIX pairs the letters in parentheses with the symbols behind them, and is refused without the
      parentheses. */
  lemma PrefixToken(info: Info, name: string, letters: string, symbols: string)
    requires AsciiEq(name, "PREFIX") && |letters| == |symbols| && ')' !in letters
    requires forall i, j :: 0 <= i < j < |letters| ==> letters[i] != letters[j]
    requires forall i, j :: 0 <= i < j < |symbols| ==> symbols[i] != symbols[j]
    ensures var t := name + "=" + ("(" + letters + ")" + symbols);
            TokenOk(t) && MatchedPrefix(ParseToken(info, t), letters, symbols)
    ensures symbols != "" && symbols[0] != '(' ==>
            TokenOk(name + "=" + symbols) && ParseToken(info, name + "=" + symbols) == info
  {
    var v := "(" + letters + ")" + symbols;
    assert v[0] == '(' && v[|letters| + 1] == ')';
    assert KeyName(PREFIX) == "PREFIX";
    hide KeyName, KeyOf, TokenOk, ParseToken, AsciiEq;
    ValueRead(info, name, PREFIX, v);
    ValueRead(info, name, PREFIX, symbols);
  }

  lemma ChantypesToken(info: Info, name: string, v: string)
    requires AsciiEq(name, "CHANTYPES")
    ensures TokenOk(name + "=" + v) && ParseToken(info, name + "=" + v) == info.(chantypes := Some(v))
    ensures TokenOk(name) && ParseToken(info, name) == info.(chantypes := None)
  {
    assert KeyName(CHANTYPES) == "CHANTYPES";
    hide KeyName, KeyOf, TokenOk, ParseToken, AsciiEq;
    ValueRead(info, name, CHANTYPES, v);
    BareRead(info, name, CHANTYPES);
  }

  /** CHANMODES: four groups between commas; the last may have commas of its own. Letters the 004 line
      left out are supported from now on. */
  lemma ChanmodesToken(info: Info, name: string, a: string, b: string, c: string, d: string)
    requires AsciiEq(name, "CHANMODES") && ',' !in a && ',' !in b && ',' !in c
    ensures var t := name + "=" + (a + "," + b + "," + c + "," + d);
            && TokenOk(t)
            && var r := ParseToken(info, t);
               && r == info.(chanmodes := Some([a, b, c, d]), channelModes := r.channelModes)
               && (info.channelModes.None? ==> r.channelModes.None?)
               && (info.channelModes.Some? ==>
                     && r.channelModes.Some?
                     && forall m: char :: m in r.channelModes.value <==> m in info.channelModes.value + (a + b + c + d))
  {
    var v := a + "," + b + "," + c + "," + d;
    FourPieces(a, b, c, d);
    assert KeyName(CHANMODES) == "CHANMODES";
    assert Concat([a, b, c, d]) == a + b + c + d by { ConcatFour(a, b, c, d); }
    if info.channelModes.Some? { MissingAdded(info.channelModes.value, a + b + c + d); }
    hide KeyName, KeyOf, TokenOk, ParseToken, AsciiEq, Concat, AddMissing, PiecesMax;
    ValueRead(info, name, CHANMODES, v);
  }

  lemma FourPieces(a: string, b: string, c: string, d: string)
    requires ',' !in a && ',' !in b && ',' !in c
    ensures PiecesMax(a + "," + b + "," + c + "," + d, ',', 4) == [a, b, c, d]
  {
    hide PiecesMax;
    PiecesMaxStep(a, b + "," + c + "," + d, ',', 4);
    PiecesMaxStep(b, c + "," + d, ',', 3);
    PiecesMaxStep(c, d, ',', 2);
    assert PiecesMax(d, ',', 1) == [d] by { LastPiece(d); }
    assert a + [','] + (b + "," + c + "," + d) == a + "," + b + "," + c + "," + d;
    assert b + [','] + (c + "," + d) == b + "," + c + "," + d;
  }

  lemma LastPiece(d: string)
    ensures PiecesMax(d, ',', 1) == [d]
  {}

  lemma ConcatFour(a: string, b: string, c: string, d: string)
    ensures Concat([a, b, c, d]) == a + b + c + d
  {
    assert [d][1..] == [] && [c, d][1..] == [d] && [b, c, d][1..] == [c, d] && [a, b, c, d][1..] == [b, c, d];
    assert Concat([d]) == d && Concat([c, d]) == c + d && Concat([b, c, d]) == b + c + d;
    assert a + (b + c + d) == a + b + c + d;
  }

  lemma {:induction false} MissingAdded(known: string, modes: string)
    ensures forall m: char :: m in AddMissing(known, modes) <==> m in known + modes
    decreases |modes|
  {
    if modes != "" {
      assert modes == [modes[0]] + modes[1..];
      MissingAdded(if modes[0] in known then known else known + [modes[0]], modes[1..]);
    }
  }

  /** ELIST adds the searches it names and knows. */
  lemma ElistToken(info: Info, name: string, v: string)
    requires AsciiEq(name, "ELIST")
    ensures TokenOk(name + "=" + v)
    ensures var r := ParseToken(info, name + "=" + v);
            && r == info.(elist := r.elist)
            && forall m: char :: m in r.elist <==>
                 m in info.elist || (m in v && (m == 'M' || m == 'N' || m == 'T' || m == 'U' || m == 'C'))
  {
    assert KeyName(ELIST) == "ELIST";
    assert ValueOk(ELIST, Some(v));
    ElistAssigned(info, v);
    hide *;
    ValueRead(info, name, ELIST, v);
  }

  lemma ElistAssigned(info: Info, v: string)
    requires ValueOk(ELIST, Some(v))
    ensures var r := Assign(info, ELIST, Some(v));
            && r == info.(elist := r.elist)
            && forall m: char :: m in r.elist <==>
                 m in info.elist || (m in v && (m == 'M' || m == 'N' || m == 'T' || m == 'U' || m == 'C'))
  {}

  /** EXTBAN alone is "~,cqr". */
  lemma ExtbanToken(info: Info, name: string, prefix: string, supported: string)
    requires AsciiEq(name, "EXTBAN") && ',' !in prefix
    ensures TokenOk(name) && ParseToken(info, name) == info.(extban := Some(Extban("~", Some("cqr"))))
    ensures TokenOk(name + "=" + (prefix + "," + supported))
    ensures ParseToken(info, name + "=" + (prefix + "," + supported)) ==
            info.(extban := Some(Extban(prefix, Some(supported))))
  {
    assert KeyName(EXTBAN) == "EXTBAN";
    var v := prefix + "," + supported;
    assert v != "" && prefix + [','] + supported == v;
    PiecesMaxStep(prefix, supported, ',', 2);
    LastPiece(supported);
    hide KeyName, KeyOf, TokenOk, ParseToken, AsciiEq, PiecesMax;
    BareRead(info, name, EXTBAN);
    ValueRead(info, name, EXTBAN, v);
  }

  lemma SilenceToken(info: Info, name: string, n: int)
    requires AsciiEq(name, "SILENCE")
    ensures TokenOk(name) && ParseToken(info, name) == info.(silence := true)
    ensures TokenOk(name + "=" + DecInt(n))
    ensures ParseToken(info, name + "=" + DecInt(n)) == info.(silence := true, silenceLimit := n)
  {
    assert KeyName(SILENCE) == "SILENCE";
    AtoiOfPrinted(n);
    hide KeyName, KeyOf, TokenOk, ParseToken, AsciiEq, Atoi, DecInt;
    BareRead(info, name, SILENCE);
    ValueRead(info, name, SILENCE, DecInt(n));
  }
}
