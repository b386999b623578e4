/**
 * Configuration loading with defaults, single-key configuration updates, and
 * the two display helpers: cooking-time text and difficulty colour.
 * Reading and writing the configuration file is not modelled: the parsed file
 * is an input and the dictionary handed to `save_config` an output.
 */
module Utils {
  import opened Wrappers
  import opened JsonValues
  import opened Text
  import opened Decimal

  /** The keys of `DEFAULT_CONFIG`, in the order the merge loop visits them. */
  const DefaultKeys: seq<string> := ["openai_api_key", "theme", "log_level", "cache_enabled", "max_cache_size"]

  const DefaultConfig: map<string, Json> := map[
    "openai_api_key" := JStr(""),
    "theme" := JStr("light"),
    "log_level" := JStr("INFO"),
    "cache_enabled" := JBool(true),
    "max_cache_size" := JInt(100)
  ]

  /** The result of opening and decoding the configuration file. */
  datatype ConfigFile = Missing | Unreadable | Parsed(document: Json)

  /**
   * The loop of `load_config`: every default key missing from the loaded
   * dictionary is added with its default value; keys already present keep
   * their loaded values.
   */
  method MergeDefaults(config: map<string, Json>) returns (merged: map<string, Json>)
    ensures merged.Keys == config.Keys + DefaultConfig.Keys
    ensures forall k :: k in config ==> merged[k] == config[k]
    ensures forall k :: k in DefaultConfig && k !in config ==> merged[k] == DefaultConfig[k]
  {
    DefaultKeysListed();
    merged := config;
    var i := 0;
    while i < |DefaultKeys|
      invariant 0 <= i <= |DefaultKeys|
      invariant forall k :: k in merged <==> k in config || k in DefaultKeys[..i]
      invariant forall k :: k in config ==> merged[k] == config[k]
      invariant forall k :: k in merged && k !in config ==> k in DefaultConfig && merged[k] == DefaultConfig[k]
    {
      var key := DefaultKeys[i];
      if key !in merged {
        merged := merged[key := DefaultConfig[key]];
      }
      i := i + 1;
    }
    assert DefaultKeys[..|DefaultKeys|] == DefaultKeys;
  }

  /** `DefaultKeys` lists exactly the keys of `DefaultConfig`. */
  lemma DefaultKeysListed()
    ensures forall k :: k in DefaultConfig <==> k in DefaultKeys
  {
  }

  /** Every default key occurs in `xs` as a string (`key in xs` for a list). */
  predicate ListHoldsDefaultKeys(xs: seq<Json>) {
    forall k :: k in DefaultConfig ==> JStr(k) in xs
  }

  /** Every default key occurs in `s` as a substring (`key in s` for a string). */
  predicate TextHoldsDefaultKeys(s: string) {
    forall k :: k in DefaultConfig ==> Contains(s, k)
  }

  /**
   * `load_config`: a missing or unreadable file gives a copy of the defaults;
   * a dictionary is completed with the defaults.  For any other JSON document
   * the loop's `key not in config` test either finds every key (a list or a
   * string that holds all of them is returned as it is) or the assignment
   * raises and the defaults are returned.
   */
  method LoadConfig(file: ConfigFile) returns (config: Json)
    ensures file.Missing? || file.Unreadable? ==> config == JObj(DefaultConfig)
    ensures file.Parsed? && file.document.JObj? ==>
      && config.JObj?
      && config.fields.Keys == file.document.fields.Keys + DefaultConfig.Keys
      && (forall k :: k in file.document.fields ==> config.fields[k] == file.document.fields[k])
      && (forall k :: k in DefaultConfig && k !in file.document.fields ==> config.fields[k] == DefaultConfig[k])
    ensures file.Parsed? && !file.document.JObj? ==>
      config == (match file.document
                 case JArr(xs) => if ListHoldsDefaultKeys(xs) then file.document else JObj(DefaultConfig)
                 case JStr(s) => if TextHoldsDefaultKeys(s) then file.document else JObj(DefaultConfig)
                 case _ => JObj(DefaultConfig))
  {
    match file {
      case Missing => config := JObj(DefaultConfig);
      case Unreadable => config := JObj(DefaultConfig);
      case Parsed(JObj(m)) =>
        var merged := MergeDefaults(m);
        config := JObj(merged);
      case Parsed(JArr(xs)) =>
        config := if ListHoldsDefaultKeys(xs) then file.document else JObj(DefaultConfig);
      case Parsed(JStr(s)) =>
        config := if TextHoldsDefaultKeys(s) then file.document else JObj(DefaultConfig);
      case Parsed(_) => config := JObj(DefaultConfig);
    }
  }

  /**
   * `update_config(key, value)`: the loaded dictionary with `key` set to
   * `value` is what gets saved; every other key keeps its loaded value.  When
   * the loaded configuration is not a dictionary the assignment raises and
   * nothing is saved.  The return value is whether saving succeeded.
   */
  method UpdateConfig(file: ConfigFile, key: string, value: Json, saveSucceeds: bool)
    returns (ok: bool, saved: Option<map<string, Json>>)
    ensures ok <==> saved.Some? && saveSucceeds
    ensures saved.Some? ==> key in saved.value && saved.value[key] == value
    ensures (file.Missing? || file.Unreadable?) ==> saved == Some(DefaultConfig[key := value])
    ensures file.Parsed? && file.document.JObj? ==>
      && saved.Some?
      && saved.value.Keys == file.document.fields.Keys + DefaultConfig.Keys + {key}
      && (forall k :: k in file.document.fields && k != key ==> saved.value[k] == file.document.fields[k])
      && (forall k :: k in DefaultConfig && k !in file.document.fields && k != key ==> saved.value[k] == DefaultConfig[k])
    ensures file.Parsed? && !file.document.JObj? && saved.Some? ==> saved.value == DefaultConfig[key := value]
  {
    var config := LoadConfig(file);
    if !config.JObj? {
      return false, None;
    }
    saved := Some(config.fields[key := value]);
    ok := saveSucceeds;
  }

  // ---------------------------------------------------------------------------
  // Cooking time

  /** `"s" if n != 1 else ""`. */
  function Plural(n: int): string {
    if n != 1 then "s" else ""
  }

  /** `f"{n} {word}{'s' if n != 1 else ''}"`. */
  function Quantity(n: int, word: string): string {
    IntToDecimal(n) + " " + word + Plural(n)
  }

  /** `format_cooking_time(minutes)`. */
  function FormatCookingTime(minutes: int): string {
    if minutes < 60 then
      Quantity(minutes, "minute")
    else
      var hours := minutes / 60;
      var rest := minutes % 60;
      if rest == 0 then Quantity(hours, "hour")
      else Quantity(hours, "hour") + " " + Quantity(rest, "minute")
  }

  /** `unit` is `word` inflected for the number `n`: singular exactly when `n == 1`. */
  predicate Inflected(n: int, unit: string, word: string) {
    unit == word + Plural(n)
  }

  /** The two units a cooking time is written in. */
  datatype TimeUnit = Minute | Hour

  function UnitWord(u: TimeUnit): string {
    match u
    case Minute => "minute"
    case Hour => "hour"
  }

  /**
   * Reads a cooking-time text back: "<n> minute(s)", "<h> hour(s)" or
   * "<h> hour(s) <m> minute(s)", each unit correctly inflected; `None` for
   * anything else.
   */
  function ReadCookingTime(s: string): Option<int> {
    ReadTimeTokens(Split(s, ' '))
  }

  /** The space-separated words of a cooking-time text, read as minutes. */
  function ReadTimeTokens(tokens: seq<string>): Option<int> {
    if |tokens| == 2 then
      match ReadPair(tokens[0], tokens[1])
      case Some((n, Hour)) => Some(60 * n)
      case Some((n, Minute)) => Some(n)
      case None => None
    else if |tokens| == 4 then
      match (ReadPair(tokens[0], tokens[1]), ReadPair(tokens[2], tokens[3]))
      case (Some((h, Hour)), Some((m, Minute))) => Some(60 * h + m)
      case _ => None
    else None
  }

  /** A number and its correctly inflected unit. */
  function ReadPair(number: string, unit: string): Option<(int, TimeUnit)> {
    match ParseInt(number)
    case None => None
    case Some(n) =>
      if Inflected(n, unit, "minute") then Some((n, Minute))
      else if Inflected(n, unit, "hour") then Some((n, Hour))
      else None
  }

  lemma IntToDecimalHasNoSpace(i: int)
    ensures ' ' !in IntToDecimal(i)
  {
  }

  /** A printed number and its inflected unit read back as that number and unit. */
  lemma ReadPairOf(n: int, u: TimeUnit)
    ensures ReadPair(IntToDecimal(n), UnitWord(u) + Plural(n)) == Some((n, u))
  {
    ParseIntRoundTrip(n);
    if u == Hour {
      assert !Inflected(n, UnitWord(u) + Plural(n), "minute") by {
        assert (UnitWord(u) + Plural(n))[0] == 'h';
      }
    }
  }

  /** One number-unit pair reads back as that many minutes or hours. */
  lemma ReadOnePair(n: int, u: TimeUnit)
    ensures Split(Quantity(n, UnitWord(u)), ' ') == [IntToDecimal(n), UnitWord(u) + Plural(n)]
    ensures ReadCookingTime(Quantity(n, UnitWord(u))) == Some(if u == Minute then n else 60 * n)
  {
    var tokens := [IntToDecimal(n), UnitWord(u) + Plural(n)];
    IntToDecimalHasNoSpace(n);
    assert Quantity(n, UnitWord(u)) == Join(tokens, [' ']);
    SplitJoin(tokens, ' ');
    ReadPairOf(n, u);
  }

  /** Four words joined by spaces. */
  lemma JoinFour(xs: seq<string>)
    requires |xs| == 4
    ensures Join(xs, " ") == xs[0] + " " + xs[1] + " " + xs[2] + " " + xs[3]
  {
    assert Join(xs[3..], " ") == xs[3];
    assert Join(xs[2..], " ") == xs[2] + " " + xs[3];
    assert Join(xs[1..], " ") == xs[1] + " " + (xs[2] + " " + xs[3]);
  }

  /** Four words that read as hours and then minutes read as their total. */
  lemma ReadFourTokens(a: string, b: string, c: string, d: string, h: int, m: int)
    requires ReadPair(a, b) == Some((h, Hour)) && ReadPair(c, d) == Some((m, Minute))
    ensures ReadTimeTokens([a, b, c, d]) == Some(60 * h + m)
  {
    var tokens := [a, b, c, d];
    assert tokens[0] == a && tokens[1] == b && tokens[2] == c && tokens[3] == d;
  }

  /** Hours and minutes read back as their total in minutes. */
  lemma ReadTwoPairs(h: int, m: int)
    ensures Split(Quantity(h, "hour") + " " + Quantity(m, "minute"), ' ') ==
      [IntToDecimal(h), UnitWord(Hour) + Plural(h), IntToDecimal(m), UnitWord(Minute) + Plural(m)]
    ensures ReadCookingTime(Quantity(h, "hour") + " " + Quantity(m, "minute")) == Some(60 * h + m)
  {
    var tokens := [IntToDecimal(h), UnitWord(Hour) + Plural(h), IntToDecimal(m), UnitWord(Minute) + Plural(m)];
    var s := Quantity(h, "hour") + " " + Quantity(m, "minute");
    assert s == Join(tokens, [' ']) by {
      JoinFour(tokens);
    }
    assert Split(s, ' ') == tokens by {
      IntToDecimalHasNoSpace(h);
      IntToDecimalHasNoSpace(m);
      SplitJoin(tokens, ' ');
    }
    ReadPairOf(h, Hour);
    ReadPairOf(m, Minute);
    ReadFourTokens(tokens[0], tokens[1], tokens[2], tokens[3], h, m);
  }

  /**
   * The cooking-time text is read back as the same number of minutes, with
   * every unit correctly inflected; it has one number-unit pair below an hour
   * or on a whole hour, and two otherwise.  Below an hour the pair is the
   * minutes; from an hour on it is the whole hours, followed by the remaining
   * minutes, between 1 and 59, when there are any.
   */
  lemma CookingTimeRoundTrip(minutes: int)
    ensures ReadCookingTime(FormatCookingTime(minutes)) == Some(minutes)
    ensures |Split(FormatCookingTime(minutes), ' ')| == (if minutes < 60 || minutes % 60 == 0 then 2 else 4)
    ensures var tokens := Split(FormatCookingTime(minutes), ' ');
      && (minutes < 60 ==> ReadPair(tokens[0], tokens[1]) == Some((minutes, Minute)))
      && (minutes >= 60 ==> ReadPair(tokens[0], tokens[1]) == Some((minutes / 60, Hour)))
      && (|tokens| == 4 ==> ReadPair(tokens[2], tokens[3]) == Some((minutes % 60, Minute)) && 0 < minutes % 60 < 60)
  {
    if minutes < 60 {
      ReadOnePair(minutes, Minute);
      ReadPairOf(minutes, Minute);
    } else {
      var hours, rest := minutes / 60, minutes % 60;
      assert minutes == 60 * hours + rest;
      ReadPairOf(hours, Hour);
      if rest == 0 {
        ReadOnePair(hours, Hour);
      } else {
        ReadTwoPairs(hours, rest);
        ReadPairOf(rest, Minute);
      }
    }
  }

  // ---------------------------------------------------------------------------
  // Difficulty colour

  const DifficultyColors: map<string, string> := map[
    "Easy" := "#4CAF50",
    "Medium" := "#FF9800",
    "Hard" := "#F44336"
  ]

  const DefaultColor: string := "#9E9E9E"

  /**
   * `get_difficulty_color`: the three levels have three different colours and
   * every other text, including other letter cases, gets the grey default.
   */
  function DifficultyColor(difficulty: string): (r: string)
    ensures difficulty == "Easy" ==> r == "#4CAF50"
    ensures difficulty == "Medium" ==> r == "#FF9800"
    ensures difficulty == "Hard" ==> r == "#F44336"
    ensures r == DefaultColor <==> difficulty != "Easy" && difficulty != "Medium" && difficulty != "Hard"
  {
    if difficulty in DifficultyColors then DifficultyColors[difficulty] else DefaultColor
  }
}
