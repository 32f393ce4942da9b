/** Strings as the operator uses them: Go's strings.Split on one separator and its inverse. */
module Text {

  datatype Option<+T> = None | Some(value: T)

  predicate HasSuffix(s: string, suffix: string) {
    |suffix| <= |s| && s[|s| - |suffix|..] == suffix
  }

  /** strings.Split(s, string(c)): never empty, one more part than separators. */
  function Split(s: string, c: char): (parts: seq<string>)
    ensures |parts| >= 1
  {
    if s == "" then [""]
    else
      var rest := Split(s[1..], c);
      if s[0] == c then [""] + rest else [[s[0]] + rest[0]] + rest[1..]
  }

  function Join(parts: seq<string>, c: char): string
    requires parts != []
  {
    if |parts| == 1 then parts[0] else parts[0] + [c] + Join(parts[1..], c)
  }

  predicate Free(parts: seq<string>, c: char) {
    forall i | 0 <= i < |parts| :: c !in parts[i]
  }

  lemma {:induction false} SplitJoin(parts: seq<string>, c: char)
    requires parts != [] && Free(parts, c)
    ensures Split(Join(parts, c), c) == parts
  {
    if |parts| == 1 {
      SplitPrefix(parts[0], "", c);
      assert parts[0] + "" == parts[0];
      assert Split("", c) == [""];
      assert [parts[0] + ""] + [] == parts;
    } else {
      var rest := Join(parts[1..], c);
      SplitPrefix(parts[0], [c] + rest, c);
      assert parts[0] + ([c] + rest) == Join(parts, c);
      assert ([c] + rest)[1..] == rest;
      SplitJoin(parts[1..], c);
      assert Split([c] + rest, c) == [""] + parts[1..];
      assert parts[0] + "" == parts[0];
      assert [parts[0] + ""] + parts[1..] == parts;
    }
  }

  /** A separator-free prefix only lengthens the first part. */
  lemma {:induction false} SplitPrefix(head: string, tail: string, c: char)
    requires c !in head
    ensures Split(head + tail, c) == [head + Split(tail, c)[0]] + Split(tail, c)[1..]
  {
    if head == "" {
      assert head + tail == tail;
      assert "" + Split(tail, c)[0] == Split(tail, c)[0];
    } else {
      SplitPrefix(head[1..], tail, c);
      assert (head + tail)[1..] == head[1..] + tail;
      assert [head[0]] + (head[1..] + Split(tail, c)[0]) == head + Split(tail, c)[0];
    }
  }

  lemma {:induction false} JoinSplit(s: string, c: char)
    ensures Join(Split(s, c), c) == s && Free(Split(s, c), c)
  {
    if s != "" {
      JoinSplit(s[1..], c);
      var rest := Split(s[1..], c);
      var parts := Split(s, c);
      if s[0] == c {
        assert parts[1..] == rest;
        assert "" + [c] + s[1..] == s;
      } else {
        assert parts[1..] == rest[1..];
        assert [s[0]] + s[1..] == s;
        if |rest| > 1 {
          assert parts[0] + [c] + Join(rest[1..], c) == [s[0]] + (rest[0] + [c] + Join(rest[1..], c));
        }
      }
    }
  }
}
