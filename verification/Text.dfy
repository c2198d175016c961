/** Splitting and joining of strings at a separator, as `str.split` and `str.join` do. */
module Text {

  function Split(s: string, sep: char): (parts: seq<string>)
    ensures |parts| >= 1
  {
    if s == [] then [""]
    else
      var rest := Split(s[1..], sep);
      if s[0] == sep then [""] + rest else [[s[0]] + rest[0]] + rest[1..]
  }

  function Join(parts: seq<string>, sep: char): string
    requires |parts| >= 1
  {
    if |parts| == 1 then parts[0] else parts[0] + [sep] + Join(parts[1..], sep)
  }

  lemma {:induction false} SplitOfOne(s: string, sep: char)
    requires sep !in s
    ensures Split(s, sep) == [s]
  {
    if s != [] {
      assert s[0] in s;
      SplitOfOne(s[1..], sep);
      assert [s[0]] + s[1..] == s;
    }
  }

  lemma SplitAfterLastSep(s: string, sep: char)
    ensures s == "" || s[|s| - 1] == sep ==> "" in Split(s, sep)
  {
    if s == "" {
      assert Split(s, sep)[0] == "";
    } else if s[|s| - 1] == sep {
      var front := s[..|s| - 1];
      assert s == front + [sep] + "";
      SplitAt(front, "", sep);
      var parts := Split(front, sep) + Split("", sep);
      assert parts[|parts| - 1] == "";
    }
  }

  /** Splitting at a separator splits both sides on their own. */
  lemma {:induction false} SplitAt(a: string, b: string, sep: char)
    ensures Split(a + [sep] + b, sep) == Split(a, sep) + Split(b, sep)
  {
    var s := a + [sep] + b;
    if a == [] {
      assert s[1..] == b;
    } else {
      assert s[1..] == a[1..] + [sep] + b;
      SplitAt(a[1..], b, sep);
    }
  }

  lemma {:induction false} JoinOfSplit(s: string, sep: char)
    ensures Join(Split(s, sep), sep) == s
  {
    if s != [] {
      var rest := Split(s[1..], sep);
      JoinOfSplit(s[1..], sep);
      if s[0] == sep {
        assert ([""] + rest)[1..] == rest;
      } else {
        assert ([[s[0]] + rest[0]] + rest[1..])[1..] == rest[1..];
      }
    }
  }

  lemma {:induction false} JoinConcat(a: seq<string>, b: seq<string>, sep: char)
    requires |a| >= 1 && |b| >= 1
    ensures Join(a + b, sep) == Join(a, sep) + [sep] + Join(b, sep)
  {
    if |a| == 1 {
      assert (a + b)[1..] == b;
    } else {
      assert (a + b)[1..] == a[1..] + b;
      JoinConcat(a[1..], b, sep);
    }
  }

  /** Joining blocks that may hold separators of their own and splitting again
      yields the pieces of each block in turn. */
  function SplitEach(blocks: seq<string>, sep: char): seq<string> {
    if blocks == [] then [] else Split(blocks[0], sep) + SplitEach(blocks[1..], sep)
  }

  lemma {:induction false} SplitOfJoin(blocks: seq<string>, sep: char)
    requires |blocks| >= 1
    ensures Split(Join(blocks, sep), sep) == SplitEach(blocks, sep)
  {
    if |blocks| == 1 {
      assert SplitEach(blocks[1..], sep) == [];
    } else {
      SplitAt(blocks[0], Join(blocks[1..], sep), sep);
      SplitOfJoin(blocks[1..], sep);
    }
  }

  lemma {:induction false} SplitEachConcat(a: seq<string>, b: seq<string>, sep: char)
    ensures SplitEach(a + b, sep) == SplitEach(a, sep) + SplitEach(b, sep)
  {
    hide Split;
    if a == [] {
      assert a + b == b;
    } else {
      assert (a + b)[1..] == a[1..] + b;
      SplitEachConcat(a[1..], b, sep);
    }
  }

  lemma {:induction false} SplitEachOfOnes(parts: seq<string>, sep: char)
    requires forall k :: 0 <= k < |parts| ==> sep !in parts[k]
    ensures SplitEach(parts, sep) == parts
  {
    if parts != [] {
      SplitOfOne(parts[0], sep);
      SplitEachOfOnes(parts[1..], sep);
    }
  }

  lemma {:induction false} PiecesHaveNoSep(s: string, sep: char)
    ensures forall i :: 0 <= i < |Split(s, sep)| ==> sep !in Split(s, sep)[i]
  {
    if s != [] {
      PiecesHaveNoSep(s[1..], sep);
    }
  }

  predicate StartsWith(s: string, prefix: string) {
    prefix <= s
  }

  predicate EndsWith(s: string, suffix: string) {
    |suffix| <= |s| && s[|s| - |suffix|..] == suffix
  }
}
