/** The two derived settings of backend/config/settings.py: the tracked
    coin list and the Redis URL, as functions of the fields they read.
    Loading the fields from the environment is not modelled. */
module Settings {
  import opened Wrappers
  import opened Strings
  import CoinGecko

  /** The `REDIS_HOST`, `REDIS_PORT` and `REDIS_DB` defaults. */
  const DefaultRedisHost: String := "localhost"
  const DefaultRedisPort: int := 6379
  const DefaultRedisDb: int := 0

  /** The symbols of the `TRACKED_COINS` default, in the order written. */
  const DefaultSymbols: seq<String> := ["BTC", "ETH", "SOL", "BNB", "AVAX", "LINK", "MATIC", "DOT",
                                        "ADA", "XRP", "INJ", "SEI", "ARB", "OP", "TIA", "SUI"]

  /** The `TRACKED_COINS` default: those symbols, comma-separated. */
  const DefaultTrackedCoins: String := Join(DefaultSymbols, ",")

  /** `coins_list` of a `TRACKED_COINS` value: its comma-separated pieces,
      each stripped, in order, empty pieces included. */
  function CoinsList(trackedCoins: String): (r: seq<String>)
    ensures |r| == CountChar(trackedCoins, ',') + 1
    ensures forall k :: 0 <= k < |r| ==> r[k] == Strip(Split(trackedCoins, ',')[k])
  {
    var pieces := Split(trackedCoins, ',');
    seq(|pieces|, k requires 0 <= k < |pieces| => Strip(pieces[k]))
  }

  /** Symbols without commas and without surrounding whitespace, written
      comma-separated, come back from `coins_list` unchanged. */
  lemma CoinsListOfJoined(symbols: seq<String>)
    requires |symbols| >= 1
    requires forall k :: 0 <= k < |symbols| ==> ',' !in symbols[k]
    requires forall k :: 0 <= k < |symbols| ==> symbols[k] == [] || (!IsSpace(symbols[k][0]) && !IsSpace(symbols[k][|symbols[k]| - 1]))
    ensures CoinsList(Join(symbols, ",")) == symbols
  {
    SplitJoin(symbols, ',');
    forall k | 0 <= k < |symbols|
      ensures CoinsList(Join(symbols, ","))[k] == symbols[k]
    {
      StripNoSpace(symbols[k]);
    }
  }

  /** Two comma-free values around one comma give the two stripped values. */
  lemma CoinsListPair(a: String, b: String)
    requires ',' !in a && ',' !in b
    ensures CoinsList(a + [','] + b) == [Strip(a), Strip(b)]
  {
    SplitPair(a, ',', b);
  }

  /** A leading whitespace character, ASCII or not, is stripped. */
  lemma StripSpaceFront(c: char, s: String)
    requires IsSpace(c)
    ensures Strip([c] + s) == Strip(s)
  {
    assert ([c] + s)[1..] == s;
  }

  /** Whitespace after the comma does not reach the second value. */
  lemma CoinsListSpacedPair(a: String, c: char, b: String)
    requires ',' !in a && ',' !in b && IsSpace(c)
    ensures CoinsList(a + [','] + ([c] + b)) == [Strip(a), Strip(b)]
  {
    CoinsListPair(a, [c] + b);
    StripSpaceFront(c, b);
  }

  /** A no-break space after a comma is stripped like an ASCII one. */
  lemma CoinsListNoBreakSpace()
    ensures CoinsList("BTC,\U{A0}ETH") == ["BTC", "ETH"]
  {
    var a, b := "BTC", "ETH";
    assert ',' !in a && ',' !in b;
    assert "BTC,\U{A0}ETH" == a + [','] + (['\U{A0}'] + b);
    CoinsListSpacedPair(a, '\U{A0}', b);
    StripNoSpace(a);
    StripNoSpace(b);
  }

  /** Every default symbol is upper-case letters only. */
  lemma DefaultSymbolsPlain()
    ensures forall k, i :: 0 <= k < |DefaultSymbols| && 0 <= i < |DefaultSymbols[k]| ==> 'A' <= DefaultSymbols[k][i] <= 'Z'
  {
  }

  /** The default list is the sixteen symbols, BTC first and SUI last. */
  lemma DefaultCoins()
    ensures CoinsList(DefaultTrackedCoins) == DefaultSymbols
    ensures |CoinsList(DefaultTrackedCoins)| == 16
    ensures CoinsList(DefaultTrackedCoins)[0] == "BTC" && CoinsList(DefaultTrackedCoins)[15] == "SUI"
  {
    DefaultSymbolsPlain();
    CoinsListOfJoined(DefaultSymbols);
  }

  /** The default symbols are the symbols of the CoinGecko table, and each
      of them has a CoinGecko ID. */
  lemma DefaultCoinsKnown()
    ensures DefaultSymbols == CoinGecko.TableSymbols
    ensures forall k :: 0 <= k < |DefaultSymbols| ==> CoinGecko.GetCoinId(DefaultSymbols[k]).Some?
  {
    DefaultSymbolsPlain();
    forall k | 0 <= k < |DefaultSymbols|
      ensures CoinGecko.GetCoinId(DefaultSymbols[k]).Some?
    {
      CoinGecko.SymbolCount(DefaultSymbols[k]);
      UpperFixed(DefaultSymbols[k]);
    }
  }

  const RedisScheme: String := "redis://"

  /** `redis_url` of the `REDIS_HOST`, `REDIS_PORT` and `REDIS_DB` values. */
  function RedisUrl(host: String, port: int, db: int): (r: String)
    ensures |r| > |RedisScheme| + |host|
    ensures r[..|RedisScheme|] == RedisScheme
    ensures r[|RedisScheme|..|RedisScheme| + |host|] == host && r[|RedisScheme| + |host|] == ':'
  {
    RedisScheme + (host + ":" + (IntToString(port) + "/" + IntToString(db)))
  }

  /** Two separator-free parts around one separator split back apart. */
  lemma SplitPair(a: String, sep: char, b: String)
    requires sep !in a && sep !in b
    ensures Split(a + [sep] + b, sep) == [a, b]
  {
    SplitPiece(a, sep, b);
    SplitNoSep(b, sep);
  }

  /** A printed number holds no character other than digits. */
  lemma NoSeparatorInDigits(n: nat, c: char)
    requires !('0' <= c <= '9')
    ensures c !in NatToString(n)
  {
  }

  /** The part of the URL after the host's ':' holds no ':' and splits at
      its '/' into the port and database numbers. */
  lemma UrlNumbers(port: nat, db: nat)
    ensures ':' !in NatToString(port) + ['/'] + NatToString(db)
    ensures Split(NatToString(port) + ['/'] + NatToString(db), '/') == [NatToString(port), NatToString(db)]
  {
    var portText := NatToString(port);
    var dbText := NatToString(db);
    NoSeparatorInDigits(port, ':');
    NoSeparatorInDigits(db, ':');
    NoSeparatorInDigits(port, '/');
    NoSeparatorInDigits(db, '/');
    var tail := portText + ['/'] + dbText;
    forall i | 0 <= i < |tail|
      ensures tail[i] != ':'
    {
      if i < |portText| {
        assert tail[i] == portText[i];
      } else if i > |portText| {
        assert tail[i] == dbText[i - |portText| - 1];
      }
    }
    SplitPair(portText, '/', dbText);
  }

  /** After the scheme comes the host, the ':' and the two printed numbers. */
  lemma RedisUrlRest(host: String, port: nat, db: nat)
    ensures RedisUrl(host, port, db)[|RedisScheme|..] == host + [':'] + (NatToString(port) + ['/'] + NatToString(db))
  {
    assert IntToString(port) == NatToString(port) && IntToString(db) == NatToString(db);
  }

  /** The URL can be read back: after the scheme, a host without ':' or '/'
      comes before the one ':', and the port and database numbers are the
      digits on either side of the one '/'. */
  lemma RedisUrlParts(host: String, port: int, db: int)
    requires ':' !in host && '/' !in host
    requires port >= 0 && db >= 0
    ensures var url := RedisUrl(host, port, db);
      && url[..|RedisScheme|] == RedisScheme
      && |Split(url[|RedisScheme|..], ':')| == 2
      && Split(url[|RedisScheme|..], ':')[0] == host
      && var numbers := Split(Split(url[|RedisScheme|..], ':')[1], '/');
         && |numbers| == 2
         && (forall i :: 0 <= i < |numbers[0]| ==> '0' <= numbers[0][i] <= '9')
         && (forall i :: 0 <= i < |numbers[1]| ==> '0' <= numbers[1][i] <= '9')
         && DigitsValue(numbers[0]) == port
         && DigitsValue(numbers[1]) == db
  {
    var tail := NatToString(port) + ['/'] + NatToString(db);
    RedisUrlRest(host, port, db);
    UrlNumbers(port, db);
    SplitPair(host, ':', tail);
    NatToStringRoundTrip(port);
    NatToStringRoundTrip(db);
  }

  /** The default URL. */
  lemma DefaultRedisUrl()
    ensures RedisUrl(DefaultRedisHost, DefaultRedisPort, DefaultRedisDb) == "redis://localhost:6379/0"
  {
    assert IntToString(6379) == "6379";
    assert IntToString(0) == "0";
    assert "redis://localhost:6379/0" == "redis://" + ("localhost" + ":" + ("6379" + "/" + "0"));
  }
}
