/** How the operator reads the options in JENKINS_OPTS, and when reading them panics. */
module JenkinsOpts {
  import opened Text
  import opened Defaulting

  const OPTS_NAME := "JENKINS_OPTS"

  /** Panic: an index out of range. */
  datatype Outcome = Nil | Panic | Opts(opts: map<string, string>)

  /** strings.ReplaceAll(s, "--", ""). */
  function WithoutDashes(s: string): string {
    if |s| < 2 then s
    else if s[0] == '-' && s[1] == '-' then WithoutDashes(s[2..])
    else [s[0]] + WithoutDashes(s[1..])
  }

  function ParseItem(item: string): Option<(string, string)> {
    var opt := Split(item, '=');
    if |opt| < 2 then None else Some((WithoutDashes(opt[0]), opt[1]))
  }

  /** The map the items give, read from left to right; None if one of them has no "=". */
  function ParseItems(items: seq<string>): Option<map<string, string>> {
    if items == [] then Some(map[])
    else
      var before := ParseItems(items[..|items| - 1]);
      var last := ParseItem(items[|items| - 1]);
      if before.None? || last.None? then None else Some(before.value[last.value.0 := last.value.1])
  }

  function Parse(value: string): Outcome {
    if value == "" then Nil
    else
      var opts := ParseItems(Split(value, ' '));
      if opts.None? then Panic else Opts(opts.value)
  }

  /** Only the first JENKINS_OPTS counts. */
  function Options(env: seq<EnvVar>): Outcome {
    if env == [] then Nil else if env[0].name == OPTS_NAME then Parse(env[0].value) else Options(env[1..])
  }

  method ParseValue(value: string) returns (r: Outcome)
    ensures r == Parse(value)
  {
    if |value| == 0 {
      return Nil;
    }
    var items := Split(value, ' ');
    var opts: map<string, string> := map[];
    for i := 0 to |items|
      invariant ParseItems(items[..i]) == Some(opts)
    {
      assert items[..i + 1][..i] == items[..i];
      var opt := Split(items[i], '=');
      if |opt| < 2 {
        NoneStays(items, i + 1);
        return Panic;
      }
      opts := opts[WithoutDashes(opt[0]) := opt[1]];
    }
    assert items[..|items|] == items;
    return Opts(opts);
  }

  method GetJenkinsOpts(env: seq<EnvVar>) returns (r: Outcome)
    ensures r == Options(env)
  {
    for i := 0 to |env|
      invariant Options(env[i..]) == Options(env)
    {
      if env[i].name == OPTS_NAME {
        r := ParseValue(env[i].value);
        return;
      }
      assert env[i..][1..] == env[i + 1..];
    }
    return Nil;
  }

  lemma {:induction false} NoneStays(items: seq<string>, k: nat)
    requires k <= |items| && ParseItems(items[..k]).None?
    ensures ParseItems(items).None?
    decreases |items| - k
  {
    if k == |items| {
      assert items[..k] == items;
    } else {
      assert items[..k + 1][..k] == items[..k];
      NoneStays(items, k + 1);
    }
  }

  // ---- when it panics ---------------------------------------------------------------------

  lemma {:induction false} SplitHasSeparator(s: string, c: char)
    ensures |Split(s, c)| >= 2 <==> c in s
  {
    if s != "" {
      SplitHasSeparator(s[1..], c);
      assert c in s <==> s[0] == c || c in s[1..];
    }
  }

  predicate LacksEquals(items: seq<string>) {
    exists i | 0 <= i < |items| :: '=' !in items[i]
  }

  lemma {:induction false} ItemsPanicIff(items: seq<string>)
    ensures ParseItems(items).None? <==> LacksEquals(items)
  {
    if items != [] {
      var n := |items| - 1;
      ItemsPanicIff(items[..n]);
      LacksMore(items[..n], items[n]);
      assert items[..n] + [items[n]] == items;
      LastPanics(items);
    }
  }

  lemma LacksMore(items: seq<string>, last: string)
    ensures LacksEquals(items + [last]) <==> LacksEquals(items) || '=' !in last
  {
    assert (items + [last])[|items|] == last;
    assert forall i | 0 <= i < |items| :: (items + [last])[i] == items[i];
  }

  lemma LastPanics(items: seq<string>)
    requires items != []
    ensures ParseItems(items).None? <==> ParseItems(items[..|items| - 1]).None? || '=' !in items[|items| - 1]
  {
    SplitHasSeparator(items[|items| - 1], '=');
  }

  /** Reading panics exactly if there is a value and one of its space-separated parts lacks a "=". */
  lemma PanicsIff(value: string)
    ensures Parse(value) == Panic <==> value != "" && LacksEquals(Split(value, ' '))
  {
    ItemsPanicIff(Split(value, ' '));
  }

  /** In particular, a second space in a row is one too many. */
  lemma DoubleSpacePanics(before: string, after: string)
    ensures Parse(before + "  " + after) == Panic
  {
    var value := before + "  " + after;
    assert |value| >= 2;
    var i := EmptyPart(before, after);
    assert '=' !in Split(value, ' ')[i];
    PanicsIff(value);
  }

  lemma {:induction false} EmptyPart(before: string, after: string) returns (i: nat)
    ensures 1 <= i < |Split(before + "  " + after, ' ')| && Split(before + "  " + after, ' ')[i] == ""
  {
    var value := before + "  " + after;
    if before == "" {
      assert value[1..] == " " + after;
      assert Split(value[1..], ' ') == [""] + Split(value[1..][1..], ' ');
      assert Split(value, ' ') == [""] + Split(value[1..], ' ');
      i := 1;
    } else {
      i := EmptyPart(before[1..], after);
      assert value[1..] == before[1..] + "  " + after;
      i := if value[0] == ' ' then i + 1 else i;
    }
  }

  // ---- round trip -------------------------------------------------------------------------

  datatype Setting = Setting(key: string, value: string)

  function Print(s: Setting): string { "--" + s.key + "=" + s.value }

  function PrintAll(settings: seq<Setting>): seq<string> {
    seq(|settings|, i requires 0 <= i < |settings| => Print(settings[i]))
  }

  predicate Plain(s: Setting) {
    ' ' !in s.key && '=' !in s.key && ' ' !in s.value
  }

  /** Later settings win; of a value, what follows a "=" is lost; of a key, every "--". */
  function Read(settings: seq<Setting>): map<string, string> {
    if settings == [] then map[]
    else
      var s := settings[|settings| - 1];
      Read(settings[..|settings| - 1])[WithoutDashes(s.key) := Split(s.value, '=')[0]]
  }

  lemma {:induction false} ReadItems(settings: seq<Setting>)
    requires forall i | 0 <= i < |settings| :: Plain(settings[i])
    ensures ParseItems(PrintAll(settings)) == Some(Read(settings))
  {
    if settings != [] {
      var n := |settings| - 1;
      ReadItems(settings[..n]);
      assert PrintAll(settings)[..n] == PrintAll(settings[..n]);
      ParsePrinted(settings[n]);
    }
  }

  lemma ParsePrinted(s: Setting)
    requires Plain(s)
    ensures ParseItem(Print(s)) == Some((WithoutDashes(s.key), Split(s.value, '=')[0]))
  {
    var head, tail := "--" + s.key, "=" + s.value;
    assert '=' !in head;
    SplitPrefix(head, tail, '=');
    assert tail[1..] == s.value && Split(tail, '=') == [""] + Split(s.value, '=');
    assert head + tail == Print(s);
    assert head + "" == head;
    assert head[2..] == s.key;
  }

  lemma PrintedHasNoSpace(s: Setting)
    requires Plain(s)
    ensures ' ' !in Print(s) && Print(s) != ""
  {
  }

  /** Printed settings, joined by single spaces, are read back in order. */
  lemma {:induction false} ReadBack(settings: seq<Setting>)
    requires settings != [] && forall i | 0 <= i < |settings| :: Plain(settings[i])
    ensures Parse(Join(PrintAll(settings), ' ')) == Opts(Read(settings))
  {
    var items := PrintAll(settings);
    forall i | 0 <= i < |items| ensures ' ' !in items[i] {
      PrintedHasNoSpace(settings[i]);
    }
    SplitJoin(items, ' ');
    ReadItems(settings);
    JoinIsNotEmpty(items, ' ');
  }

  lemma JoinIsNotEmpty(items: seq<string>, c: char)
    requires items != [] && items[0] != ""
    ensures Join(items, c) != ""
  {
    assert items[0] <= Join(items, c);
  }

  predicate HasDashes(s: string) {
    exists i | 0 <= i < |s| - 1 :: s[i] == '-' && s[i + 1] == '-'
  }

  lemma {:induction false} DashesStay(s: string)
    ensures |WithoutDashes(s)| <= |s|
    ensures WithoutDashes(s) == s <==> !HasDashes(s)
  {
    if |s| >= 2 {
      if s[0] == '-' && s[1] == '-' {
        DashesStay(s[2..]);
      } else {
        DashesStay(s[1..]);
        assert s == [s[0]] + s[1..];
        if HasDashes(s) {
          var i :| 0 <= i < |s| - 1 && s[i] == '-' && s[i + 1] == '-';
          assert s[1..][i - 1] == '-' && s[1..][i] == '-';
        }
        if HasDashes(s[1..]) {
          var i :| 0 <= i < |s[1..]| - 1 && s[1..][i] == '-' && s[1..][i + 1] == '-';
          assert s[i + 1] == '-' && s[i + 2] == '-';
        }
      }
    }
  }

  /** The last setting of a key. */
  predicate IsLast(settings: seq<Setting>, key: string, k: nat) {
    && k < |settings| && settings[k].key == key
    && forall i | k < i < |settings| :: settings[i].key != key
  }

  /**
   * If moreover no key contains "--" and no value "=", reading gives back exactly the keys that were
   * printed, each with its last value.
   */
  lemma {:induction false} ReadsTheLastValue(settings: seq<Setting>, key: string)
    requires forall i | 0 <= i < |settings| :: !HasDashes(settings[i].key) && '=' !in settings[i].value
    ensures key in Read(settings) <==> exists k: nat :: IsLast(settings, key, k)
    ensures forall k: nat | IsLast(settings, key, k) :: key in Read(settings) && Read(settings)[key] == settings[k].value
  {
    if settings != [] {
      var n := |settings| - 1;
      var s := settings[n];
      ReadsTheLastValue(settings[..n], key);
      DashesStay(s.key);
      SplitHasSeparator(s.value, '=');
      JoinSplit(s.value, '=');
      forall k: nat | IsLast(settings, key, k) && k < n ensures IsLast(settings[..n], key, k) {
        assert forall i | k <= i < n :: settings[..n][i] == settings[i];
      }
      if s.key == key {
        assert IsLast(settings, key, n);
      } else if key in Read(settings[..n]) {
        var k: nat :| IsLast(settings[..n], key, k);
        assert forall i | k < i < n :: settings[..n][i] == settings[i];
        assert IsLast(settings, key, k);
      }
    }
  }

  /** A single setting is read back as it was printed exactly if its key has no "--" and its value no "=". */
  lemma ReadsBackIff(s: Setting)
    requires Plain(s)
    ensures Parse(Print(s)) == Opts(map[s.key := s.value]) <==> !HasDashes(s.key) && '=' !in s.value
  {
    ReadBack([s]);
    assert [s][..0] == [] && PrintAll([s]) == [Print(s)];
    var key, value := WithoutDashes(s.key), Split(s.value, '=')[0];
    assert Read([s]) == map[key := value];
    DashesStay(s.key);
    FirstPartIff(s.value);
    if map[key := value] == map[s.key := s.value] {
      assert s.key in map[key := value];
      assert key == s.key && value == s.value;
    }
  }

  lemma FirstPartIff(v: string)
    ensures Split(v, '=')[0] == v <==> '=' !in v
  {
    SplitHasSeparator(v, '=');
    JoinSplit(v, '=');
  }
}
