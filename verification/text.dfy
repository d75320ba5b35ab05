/** The few Foundation string operations the core relies on, on `string` = `seq<char>`:
    `lowercased()` (ASCII letters only), `contains(_:)`, `components(separatedBy:)`,
    `joined(separator:)` and `replacingOccurrences(of:with:)` for single characters. */
module Text {

  // ---------------------------------------------------------------------------
  // lowercased()

  function LowerChar(c: char): char {
    if 'A' <= c <= 'Z' then (c as int + 32) as char else c
  }

  /** ASCII lowercasing, one character at a time. */
  function Lowercased(s: string): string {
    seq(|s|, i requires 0 <= i < |s| => LowerChar(s[i]))
  }

  predicate IsLower(s: string) {
    forall i :: 0 <= i < |s| ==> !('A' <= s[i] <= 'Z')
  }

  /** Lowercasing yields a lowercase string and leaves a lowercase string alone,
      so lowercasing twice is the same as lowercasing once. */
  lemma LowercasedIdempotent(s: string)
    ensures IsLower(Lowercased(s))
    ensures IsLower(s) ==> Lowercased(s) == s
    ensures Lowercased(Lowercased(s)) == Lowercased(s)
  {
    var l := Lowercased(s);
    assert Lowercased(l) == l by {
      forall i | 0 <= i < |l| ensures Lowercased(l)[i] == l[i] {
        assert l[i] == LowerChar(s[i]);
      }
    }
  }

  // ---------------------------------------------------------------------------
  // contains(_:)

  /** `needle` occurs in `hay` starting at index `i`. */
  ghost predicate OccursAt(hay: string, needle: string, i: int) {
    0 <= i && i + |needle| <= |hay| && hay[i..i + |needle|] == needle
  }

  /** `hay.contains(needle)`: tries every start position from the left. The empty
      needle is contained in every string. */
  function Contains(hay: string, needle: string): bool
    decreases |hay|
  {
    needle <= hay || (hay != [] && Contains(hay[1..], needle))
  }

  /** Contains is exactly "occurs at some index". */
  lemma {:induction false} ContainsIff(hay: string, needle: string)
    ensures Contains(hay, needle) <==> exists i :: OccursAt(hay, needle, i)
    decreases |hay|
  {
    if needle <= hay {
      assert OccursAt(hay, needle, 0);
    } else if hay == [] {
      assert |needle| > 0;
      forall i ensures !OccursAt(hay, needle, i) { }
    } else {
      // an occurrence at i >= 1 in hay is one at i - 1 in its tail, and none is at 0
      ContainsIff(hay[1..], needle);
      forall i | 1 <= i && i + |needle| <= |hay|
        ensures OccursAt(hay, needle, i) <==> OccursAt(hay[1..], needle, i - 1)
      {
        assert hay[1..][i - 1..i - 1 + |needle|] == hay[i..i + |needle|];
      }
      if Contains(hay[1..], needle) {
        var j :| OccursAt(hay[1..], needle, j);
        assert OccursAt(hay, needle, j + 1);
      } else {
        forall i ensures !OccursAt(hay, needle, i) {
          if i >= 1 && i + |needle| <= |hay| {
            assert !OccursAt(hay[1..], needle, i - 1);
          }
        }
      }
    }
  }

  /** Every string contains itself. */
  lemma ContainsSelf(s: string)
    ensures Contains(s, s)
  {
    assert s <= s;
  }

  /** Every character of a prefix is a character of the string. */
  lemma PrefixChars(p: string, s: string)
    ensures p <= s ==> forall c :: c in p ==> c in s
  {
    if p <= s {
      forall c | c in p ensures c in s {
        var k :| 0 <= k < |p| && p[k] == c;
        assert s[k] == c;
      }
    }
  }

  /** A needle holding a character the string lacks is not contained in it. */
  lemma {:induction false} MissingCharNotContained(hay: string, needle: string, c: char)
    requires c in needle && c !in hay
    ensures !Contains(hay, needle)
    decreases |hay|
  {
    PrefixChars(needle, hay);
    if hay != [] {
      MissingCharNotContained(hay[1..], needle, c);
    }
  }

  // ---------------------------------------------------------------------------
  // components(separatedBy:) and joined(separator:)

  /** `s.components(separatedBy: [sep])`: the pieces between separators, empty
      pieces included; the empty string has one (empty) component. */
  function Split(s: string, sep: char): (parts: seq<string>)
    ensures |parts| >= 1
    decreases |s|
  {
    if s == [] then [[]]
    else
      var rest := Split(s[1..], sep);
      if s[0] == sep then [[]] + rest
      else [[s[0]] + rest[0]] + rest[1..]
  }

  /** `parts.joined(separator: [sep])`. */
  function Join(parts: seq<string>, sep: char): string
    decreases |parts|
  {
    if |parts| == 0 then []
    else if |parts| == 1 then parts[0]
    else parts[0] + [sep] + Join(parts[1..], sep)
  }

  /** Splitting on a separator and joining with it gives the string back. */
  lemma {:induction false} JoinSplit(s: string, sep: char)
    ensures Join(Split(s, sep), sep) == s
    decreases |s|
  {
    if s != [] {
      var rest := Split(s[1..], sep);
      JoinSplit(s[1..], sep);
      if s[0] != sep {
        var parts := Split(s, sep);
        assert parts[1..] == rest[1..];
        if |rest| == 1 {
          assert Join(parts, sep) == [s[0]] + rest[0];
        } else {
          assert Join(parts, sep) == [s[0]] + rest[0] + [sep] + Join(rest[1..], sep);
        }
      }
    }
  }

  /** With no separator in `s`, the split is `[s]`. */
  lemma {:induction false} SplitNoSeparator(s: string, sep: char)
    requires sep !in s
    ensures Split(s, sep) == [s]
    decreases |s|
  {
    if s != [] {
      assert sep !in s[1..];
      SplitNoSeparator(s[1..], sep);
      assert [s[0]] + s[1..] == s;
    }
  }

  /** Splitting at the first separator: the first component is the text before it
      and the other components are the split of the text after it. */
  lemma {:induction false} SplitAtFirst(pre: string, sep: char, post: string)
    requires sep !in pre
    ensures Split(pre + [sep] + post, sep) == [pre] + Split(post, sep)
    decreases |pre|
  {
    var s := pre + [sep] + post;
    if pre == [] {
      assert s[1..] == post;
    } else {
      assert s[1..] == pre[1..] + [sep] + post;
      assert sep !in pre[1..];
      SplitAtFirst(pre[1..], sep, post);
      assert [pre[0]] + pre[1..] == pre;
    }
  }

  /** A string has more than one component exactly when it holds the separator. */
  lemma {:induction false} SplitCount(s: string, sep: char)
    ensures |Split(s, sep)| > 1 <==> sep in s
    decreases |s|
  {
    if s != [] {
      SplitCount(s[1..], sep);
      assert sep in s <==> s[0] == sep || sep in s[1..];
    }
  }

  // ---------------------------------------------------------------------------
  // replacingOccurrences(of:with:) for a single character

  /** Every `from` becomes `to`; every other character stays where it is. */
  function ReplaceAll(s: string, from: char, to: char): (r: string)
    ensures |r| == |s|
    ensures from != to ==> from !in r
    ensures forall c :: c in r && c != to ==> c in s
  {
    seq(|s|, i requires 0 <= i < |s| => if s[i] == from then to else s[i])
  }
}
