/** Channel names of the WebSocket gateway, and the canonical form under which a client is registered. */
module Channels {
  import opened Keys

  datatype Code =
    | MaxSubscriptionsReached
    | Unauthorized
    | InvalidPrivateChannel
    | InvalidChannelFormat
    | InvalidChannel
    | UnknownChannelPrefix

  datatype Parsed = Valid(channel: string) | Invalid(code: Code)

  function UpperChar(c: char): char {
    if 'a' <= c <= 'z' then c - 'a' + 'A' else c
  }

  function LowerChar(c: char): char {
    if 'A' <= c <= 'Z' then c - 'A' + 'a' else c
  }

  function Upper(s: string): string {
    seq(|s|, i requires 0 <= i < |s| => UpperChar(s[i]))
  }

  function Lower(s: string): string {
    seq(|s|, i requires 0 <= i < |s| => LowerChar(s[i]))
  }

  function Colon(s: string, k: nat): (i: nat)
    requires k <= |s|
    ensures k <= i <= |s| && (i < |s| ==> s[i] == ':')
    ensures forall j :: k <= j < i ==> s[j] != ':'
    decreases |s| - k
  {
    if k < |s| && s[k] != ':' then Colon(s, k + 1) else k
  }

  /** s.split(':') */
  function Split(s: string): (parts: seq<string>)
    ensures |parts| > 0 && forall i :: 0 <= i < |parts| ==> ColonFree(parts[i])
    decreases |s|
  {
    var i := Colon(s, 0);
    if i < |s| then [s[..i]] + Split(s[i + 1..]) else [s]
  }

  predicate StartsWith(s: string, prefix: string) {
    prefix <= s
  }

  const PRIVATE_CHANNELS := ["user:orders", "user:trades", "user:balances", "user:positions"]
  const PUBLIC_PREFIXES := ["ticker", "orderbook", "trades", "markPrice"]
  const INTERVALS := ["1m", "5m", "1h", "1d"]

  function KlineName(market: string, symbol: string, interval: string): string {
    Key("kline", Key(market, Key(symbol, interval)))
  }

  /** The checks of a subscription, in their order, and the name it is registered under. */
  function Parse(channel: string, authenticated: bool): Parsed {
    if StartsWith(channel, "user:") then
      if !authenticated then Invalid(Unauthorized)
      else if channel !in PRIVATE_CHANNELS then Invalid(InvalidPrivateChannel)
      else Valid(channel)
    else if StartsWith(channel, "kline:") then ParseKline(Split(channel))
    else ParsePublic(Split(channel))
  }

  function ParseKline(parts: seq<string>): Parsed {
    if |parts| != 4 then Invalid(InvalidChannelFormat)
    else if Lower(parts[1]) != "spot" && Lower(parts[1]) != "futures" then Invalid(InvalidChannel)
    else if Lower(parts[3]) !in INTERVALS then Invalid(InvalidChannel)
    else Valid(KlineName(Lower(parts[1]), Lower(parts[2]), Lower(parts[3])))
  }

  function ParsePublic(parts: seq<string>): Parsed {
    if |parts| != 2 then Invalid(InvalidChannelFormat)
    else if parts[0] !in PUBLIC_PREFIXES then Invalid(UnknownChannelPrefix)
    else Valid(Key(parts[0], Upper(parts[1])))
  }

  // ----------------------------------------------- canonical names are fixed

  lemma SplitOfKey(a: string, b: string)
    requires ColonFree(a)
    ensures Split(Key(a, b)) == [a] + Split(b)
  {
    KeyShape(a, b);
    assert forall i :: 0 <= i < |a| ==> Key(a, b)[i] == a[i];
    assert Colon(Key(a, b), 0) == |a|;
  }

  lemma SplitOfWord(a: string)
    requires ColonFree(a)
    ensures Split(a) == [a]
  {
  }

  lemma CaseIsIdempotent(s: string)
    ensures Upper(Upper(s)) == Upper(s) && Lower(Lower(s)) == Lower(s)
    ensures ColonFree(s) ==> ColonFree(Upper(s)) && ColonFree(Lower(s))
  {
  }

  lemma PublicNameIsFixed(prefix: string, symbol: string)
    requires ColonFree(prefix) && ColonFree(symbol)
    ensures ParsePublic(Split(Key(prefix, Upper(symbol)))) == ParsePublic([prefix, symbol])
  {
    CaseIsIdempotent(symbol);
    SplitOfKey(prefix, Upper(symbol));
    SplitOfWord(Upper(symbol));
  }

  lemma KlineNameIsFixed(kline: string, market: string, symbol: string, interval: string)
    requires kline == "kline" && ColonFree(kline) && ColonFree(market) && ColonFree(symbol) && ColonFree(interval)
    ensures Split(KlineName(Lower(market), Lower(symbol), Lower(interval)))
         == [kline, Lower(market), Lower(symbol), Lower(interval)]
  {
    hide Lower, ColonFree, Split;
    CaseIsIdempotent(market);
    CaseIsIdempotent(symbol);
    CaseIsIdempotent(interval);
    SplitOfKey(Lower(symbol), Lower(interval));
    SplitOfWord(Lower(interval));
    SplitOfKey(Lower(market), Key(Lower(symbol), Lower(interval)));
    SplitOfKey(kline, Key(Lower(market), Key(Lower(symbol), Lower(interval))));
  }

  lemma PublicPrefixesDiffer(prefix: string, rest: string)
    requires prefix in PUBLIC_PREFIXES
    ensures !StartsWith(Key(prefix, rest), "user:") && !StartsWith(Key(prefix, rest), "kline:")
  {
    assert prefix == "ticker" || prefix == "orderbook" || prefix == "trades" || prefix == "markPrice";
    KeyShape(prefix, rest);
    assert Key(prefix, rest)[0] == prefix[0];
    assert "user:"[0] == 'u' && "kline:"[0] == 'k';
  }

  lemma KlinePrefix(rest: string)
    ensures StartsWith(Key("kline", rest), "kline:") && !StartsWith(Key("kline", rest), "user:")
    ensures ColonFree("kline")
  {
    assert Key("kline", rest)[..6] == "kline:";
    assert Key("kline", rest)[0] == 'k' && "user:"[0] == 'u';
  }

  /** Subscribing to a registered name registers the same name: the publishers' names are fixed points. */
  lemma ParsedNameIsFixed(channel: string, authenticated: bool)
    requires Parse(channel, authenticated).Valid?
    ensures Parse(Parse(channel, authenticated).channel, authenticated) == Parse(channel, authenticated)
  {
    hide Split, Lower, Upper, Key, ColonFree;
    var parts := Split(channel);
    if StartsWith(channel, "user:") {
    } else if StartsWith(channel, "kline:") {
      KlinePrefix(Key(Lower(parts[1]), Key(Lower(parts[2]), Lower(parts[3]))));
      KlineNameIsFixed("kline", parts[1], parts[2], parts[3]);
      CaseIsIdempotent(parts[1]);
      CaseIsIdempotent(parts[2]);
      CaseIsIdempotent(parts[3]);
    } else {
      PublicPrefixesDiffer(parts[0], Upper(parts[1]));
      PublicNameIsFixed(parts[0], parts[1]);
      assert parts == [parts[0], parts[1]];
    }
  }

  // ------------------------------------------- which texts are accepted, and as what

  predicate Private(channel: string) {
    "user:" <= channel
  }

  predicate PrivateName(channel: string) {
    channel == "user:orders" || channel == "user:trades" || channel == "user:balances" || channel == "user:positions"
  }

  /** kline:<market>:<symbol>:<interval>, in any letter case after the prefix */
  predicate KlineText(channel: string, name: string, market: string, symbol: string, interval: string) {
    && ColonFree(market) && ColonFree(symbol) && ColonFree(interval)
    && channel == Key("kline", Key(market, Key(symbol, interval)))
    && (Lower(market) == "spot" || Lower(market) == "futures")
    && (Lower(interval) == "1m" || Lower(interval) == "5m" || Lower(interval) == "1h" || Lower(interval) == "1d")
    && name == Key("kline", Key(Lower(market), Key(Lower(symbol), Lower(interval))))
  }

  /** <prefix>:<symbol>, the symbol in any letter case */
  predicate PublicText(channel: string, name: string, prefix: string, symbol: string) {
    && (prefix == "ticker" || prefix == "orderbook" || prefix == "trades" || prefix == "markPrice")
    && ColonFree(symbol) && channel == Key(prefix, symbol) && name == Key(prefix, Upper(symbol))
  }

  /** The text is a public one that is registered under the name, for whomever. */
  ghost predicate PublicName(channel: string, name: string) {
    || (exists market, symbol, interval :: KlineText(channel, name, market, symbol, interval))
    || (exists prefix, symbol :: PublicText(channel, name, prefix, symbol))
  }

  /** What a subscription may register, and under which name. */
  ghost predicate Registers(channel: string, loggedIn: bool, name: string) {
    (loggedIn && PrivateName(channel) && name == channel) || PublicName(channel, name)
  }

  /** Why a subscription is refused. */
  ghost predicate Refused(channel: string, loggedIn: bool, code: Code) {
    var colons := multiset(channel)[':'];
    if Private(channel) then
      (!loggedIn && code == Unauthorized)
      || (loggedIn && !PrivateName(channel) && code == InvalidPrivateChannel)
    else if "kline:" <= channel then
      (colons != 3 && code == InvalidChannelFormat)
      || (colons == 3 && code == InvalidChannel && forall name :: !PublicName(channel, name))
    else
      (colons != 1 && code == InvalidChannelFormat)
      || (colons == 1 && code == UnknownChannelPrefix && forall name :: !PublicName(channel, name))
  }

  /** Upper and lower case of ASCII texts: letter by letter, and each undoes the other. */
  lemma CaseLaws(s: string)
    ensures |Upper(s)| == |s| == |Lower(s)|
    ensures forall i :: 0 <= i < |s| ==> !('a' <= Upper(s)[i] <= 'z') && !('A' <= Lower(s)[i] <= 'Z')
    ensures forall i :: 0 <= i < |s| && !('a' <= s[i] <= 'z') && !('A' <= s[i] <= 'Z') ==>
      Upper(s)[i] == s[i] == Lower(s)[i]
    ensures Lower(Upper(s)) == Lower(s) && Upper(Lower(s)) == Upper(s)
  {
  }

  lemma {:induction false} SplitCounts(s: string)
    ensures |Split(s)| == multiset(s)[':'] + 1
    decreases |s|
  {
    var i := Colon(s, 0);
    assert ':' !in s[..i] && multiset(s[..i])[':'] == 0;
    if i < |s| {
      SplitCounts(s[i + 1..]);
      assert s == s[..i] + [':'] + s[i + 1..];
    } else {
      assert s == s[..i];
    }
  }

  /** The text is its parts joined again. */
  lemma SplitJoins(s: string)
    ensures |Split(s)| > 1 ==>
      && |Split(s)[0]| < |s| && s == Key(Split(s)[0], s[|Split(s)[0]| + 1..])
      && Split(s[|Split(s)[0]| + 1..]) == Split(s)[1..]
    ensures |Split(s)| == 1 ==> Split(s)[0] == s
  {
    var i := Colon(s, 0);
    if i < |s| {
      assert s == s[..i] + ":" + s[i + 1..];
    }
  }

  lemma PublicParts(channel: string)
    requires |Split(channel)| == 2
    ensures channel == Key(Split(channel)[0], Split(channel)[1])
  {
    hide Split, Key;
    SplitJoins(channel);
    SplitJoins(channel[|Split(channel)[0]| + 1..]);
  }

  lemma KlineParts(channel: string)
    requires |Split(channel)| == 4
    ensures var p := Split(channel); channel == Key(p[0], Key(p[1], Key(p[2], p[3])))
  {
    hide Split, Key;
    var p := Split(channel);
    SplitJoins(channel);
    var rest := channel[|p[0]| + 1..];
    assert p[1..] == Split(rest) && p[1] == Split(rest)[0];
    SplitJoins(rest);
    var last := rest[|p[1]| + 1..];
    assert Split(last) == p[1..][1..] && |Split(last)| == 2;
    PublicParts(last);
    assert p[1..][1..][0] == p[2] && p[1..][1..][1] == p[3];
  }

  lemma KlineTextShape(channel: string, name: string, market: string, symbol: string, interval: string)
    requires KlineText(channel, name, market, symbol, interval)
    ensures "kline:" <= channel && !("user:" <= channel)
    ensures var p := Split(channel); |p| == 4 && p[1] == market && p[2] == symbol && p[3] == interval
    ensures ParseKline(Split(channel)) == Valid(name)
  {
    var kline := "kline";
    KlinePrefix(Key(market, Key(symbol, interval)));
    assert ColonFree(kline);
    hide Split, ColonFree, Key, Lower;
    SplitOfWord(interval);
    SplitOfKey(symbol, interval);
    SplitOfKey(market, Key(symbol, interval));
    SplitOfKey(kline, Key(market, Key(symbol, interval)));
  }

  lemma PublicTextShape(channel: string, name: string, prefix: string, symbol: string)
    requires PublicText(channel, name, prefix, symbol)
    ensures !("user:" <= channel) && !("kline:" <= channel) && Split(channel) == [prefix, symbol]
    ensures ParsePublic(Split(channel)) == Valid(name)
  {
    PublicPrefixesDiffer(prefix, symbol);
    assert ColonFree(prefix);
    hide Split, ColonFree, Key, Upper;
    SplitOfWord(symbol);
    SplitOfKey(prefix, symbol);
  }

  lemma KlineStart(channel: string)
    requires "kline:" <= channel
    ensures Split(channel)[0] == "kline"
  {
    var kline := "kline";
    assert channel == Key(kline, channel[6..]) && ColonFree(kline);
    hide Split, Key, ColonFree;
    SplitOfKey(kline, channel[6..]);
  }

  lemma KlineIff(channel: string, name: string)
    requires "kline:" <= channel
    ensures ParseKline(Split(channel)) == Valid(name) <==> PublicName(channel, name)
  {
    hide Split, Key, ColonFree, Lower, Upper;
    var p := Split(channel);
    if ParseKline(p) == Valid(name) {
      KlineStart(channel);
      KlineParts(channel);
      assert KlineText(channel, name, p[1], p[2], p[3]);
    }
    if market, symbol, interval :| KlineText(channel, name, market, symbol, interval) {
      KlineTextShape(channel, name, market, symbol, interval);
    }
    if prefix, symbol :| PublicText(channel, name, prefix, symbol) {
      PublicTextShape(channel, name, prefix, symbol);
    }
  }

  lemma PublicIff(channel: string, name: string)
    requires !("kline:" <= channel) && !("user:" <= channel)
    ensures ParsePublic(Split(channel)) == Valid(name) <==> PublicName(channel, name)
  {
    hide Split, Key, ColonFree, Lower, Upper;
    var p := Split(channel);
    if ParsePublic(p) == Valid(name) {
      PublicParts(channel);
      assert PublicText(channel, name, p[0], p[1]);
    }
    if market, symbol, interval :| KlineText(channel, name, market, symbol, interval) {
      KlineTextShape(channel, name, market, symbol, interval);
    }
    if prefix, symbol :| PublicText(channel, name, prefix, symbol) {
      PublicTextShape(channel, name, prefix, symbol);
    }
  }

  lemma PrivateIsNotPublic(channel: string, name: string)
    requires "user:" <= channel
    ensures !PublicName(channel, name)
  {
    hide KlineText, PublicText;
    if market, symbol, interval :| KlineText(channel, name, market, symbol, interval) {
      KlineTextShape(channel, name, market, symbol, interval);
    }
    if prefix, symbol :| PublicText(channel, name, prefix, symbol) {
      PublicTextShape(channel, name, prefix, symbol);
    }
  }

  lemma PrivateNamesStart(channel: string)
    ensures PrivateName(channel) <==> channel in PRIVATE_CHANNELS
    ensures PrivateName(channel) ==> "user:" <= channel
  {
  }

  /**
   The checks accept a text under a name exactly when it is one of the four private channels and the
   connection is logged in, or a public text, for which the login does not matter.
   */
  lemma AcceptedIff(channel: string, loggedIn: bool, name: string)
    ensures Parse(channel, loggedIn) == Valid(name) <==> Registers(channel, loggedIn, name)
  {
    hide PublicName, PrivateName, ParseKline, ParsePublic, Split;
    PrivateNamesStart(channel);
    if "user:" <= channel {
      PrivateIsNotPublic(channel, name);
    } else if "kline:" <= channel {
      KlineIff(channel, name);
    } else {
      PublicIff(channel, name);
    }
  }

  /** And they refuse it exactly with the code that says why. */
  lemma RefusedIff(channel: string, loggedIn: bool, code: Code)
    ensures Parse(channel, loggedIn) == Invalid(code) <==> Refused(channel, loggedIn, code)
  {
    hide PublicName, PrivateName, Split;
    PrivateNamesStart(channel);
    SplitCounts(channel);
    if "user:" <= channel {
    } else if "kline:" <= channel {
      forall name ensures ParseKline(Split(channel)) == Valid(name) <==> PublicName(channel, name) {
        KlineIff(channel, name);
      }
      NoneValid(ParseKline(Split(channel)), channel);
    } else {
      forall name ensures ParsePublic(Split(channel)) == Valid(name) <==> PublicName(channel, name) {
        PublicIff(channel, name);
      }
      NoneValid(ParsePublic(Split(channel)), channel);
    }
  }

  lemma NoneValid(parsed: Parsed, channel: string)
    requires forall name :: parsed == Valid(name) <==> PublicName(channel, name)
    ensures parsed.Invalid? <==> forall name :: !PublicName(channel, name)
  {
    if parsed.Valid? {
      assert PublicName(channel, parsed.channel);
    }
  }

  /** A private name is only ever registered for a connection that is logged in, and is one of the four. */
  lemma PrivateNeedsLogin(channel: string, loggedIn: bool, name: string)
    requires Parse(channel, loggedIn) == Valid(name) && Private(name)
    ensures loggedIn && PrivateName(name)
  {
    hide ParseKline, ParsePublic;
    ParsedNameIsFixed(channel, loggedIn);
    PrivateNamesStart(name);
  }
}
