/**
 * The JavaScript string operations the core relies on: `split`, `join`,
 * `includes`, `toLowerCase`, `startsWith` and `split(...).pop()`.
 * Strings are sequences of characters; `toLowerCase` is modelled on ASCII.
 */
module Text {

  /** `s.startsWith(prefix)`. */
  predicate StartsWith(s: string, prefix: string) {
    |prefix| <= |s| && s[..|prefix|] == prefix
  }

  // ---------------------------------------------------------------------------
  // split and join

  /** `s.split(sep)` for a one-character separator: never empty, no part holds `sep`. */
  function Split(s: string, sep: char): (parts: seq<string>)
    ensures |parts| >= 1
    ensures forall i :: 0 <= i < |parts| ==> sep !in parts[i]
    decreases |s|
  {
    if |s| == 0 then [""]
    else
      var rest := Split(s[1..], sep);
      if s[0] == sep then [""] + rest
      else [[s[0]] + rest[0]] + rest[1..]
  }

  /** `parts.join(sep)`; an empty array joins to `""`. */
  function Join(parts: seq<string>, sep: string): string
  {
    if |parts| == 0 then ""
    else if |parts| == 1 then parts[0]
    else parts[0] + sep + Join(parts[1..], sep)
  }

  /** Joining the parts of a split with the same separator gives the string back. */
  lemma {:induction false} JoinSplit(s: string, sep: char)
    ensures Join(Split(s, sep), [sep]) == s
    decreases |s|
  {
    if |s| > 0 {
      var rest := Split(s[1..], sep);
      JoinSplit(s[1..], sep);
      if s[0] == sep {
        assert ([""] + rest)[1..] == rest;
      } else {
        var parts := [[s[0]] + rest[0]] + rest[1..];
        if |rest| == 1 {
          assert s == [s[0]] + s[1..];
        } else {
          assert parts[1..] == rest[1..];
          assert Join(rest, [sep]) == rest[0] + [sep] + Join(rest[1..], [sep]);
          assert s == [s[0]] + s[1..];
        }
      }
    }
  }

  /** A string without the separator splits into itself alone. */
  lemma {:induction false} SplitNoSep(a: string, sep: char)
    requires sep !in a
    ensures Split(a, sep) == [a]
    decreases |a|
  {
    if |a| > 0 {
      SplitNoSep(a[1..], sep);
      assert [a[0]] + a[1..] == a;
    }
  }

  /** Splitting at the first separator: the piece before it becomes the first part. */
  lemma {:induction false} SplitAtSep(a: string, sep: char, b: string)
    requires sep !in a
    ensures Split(a + [sep] + b, sep) == [a] + Split(b, sep)
    decreases |a|
  {
    var s := a + [sep] + b;
    if |a| == 0 {
      assert s[1..] == b;
    } else {
      assert s[1..] == a[1..] + [sep] + b;
      SplitAtSep(a[1..], sep, b);
      assert [a[0]] + a[1..] == a;
    }
  }

  /** Splitting a join of separator-free parts gives the parts back. */
  lemma {:induction false} SplitJoin(parts: seq<string>, sep: char)
    requires |parts| >= 1
    requires forall i :: 0 <= i < |parts| ==> sep !in parts[i]
    ensures Split(Join(parts, [sep]), sep) == parts
    decreases |parts|
  {
    if |parts| == 1 {
      SplitNoSep(parts[0], sep);
    } else {
      SplitJoin(parts[1..], sep);
      SplitAtSep(parts[0], sep, Join(parts[1..], [sep]));
      assert [parts[0]] + parts[1..] == parts;
    }
  }

  /** `s.split(sep).pop()`: the last part of the split. */
  function LastSegment(s: string, sep: char): string
  {
    var parts := Split(s, sep);
    parts[|parts| - 1]
  }

  /** One step of the split: the first character either joins the first part or closes it. */
  lemma LastSegmentStep(s: string, sep: char)
    requires |s| > 0
    ensures s[0] == sep || |Split(s[1..], sep)| > 1 ==> LastSegment(s, sep) == LastSegment(s[1..], sep)
    ensures s[0] != sep && |Split(s[1..], sep)| == 1 ==> LastSegment(s, sep) == [s[0]] + LastSegment(s[1..], sep)
  {
  }

  /** The last segment is a separator-free suffix that is all of `s` or follows a separator. */
  lemma {:induction false} LastSegmentSuffix(s: string, sep: char)
    ensures var seg := LastSegment(s, sep);
      && sep !in seg
      && |seg| <= |s| && s[|s| - |seg|..] == seg
      && (|seg| < |s| ==> s[|s| - |seg| - 1] == sep)
    decreases |s|
  {
    if |s| > 0 {
      var t := s[1..];
      LastSegmentSuffix(t, sep);
      LastSegmentStep(s, sep);
      var seg := LastSegment(s, sep);
      if s[0] != sep && |Split(t, sep)| == 1 {
        JoinSplit(t, sep);
        assert seg == [s[0]] + t == s;
      } else {
        assert t[|t| - |seg|..] == s[|s| - |seg|..];
        if s[0] != sep && sep !in t {
          SplitNoSep(t, sep);
        }
      }
    }
  }

  /**
   * The last segment is the text after the last separator: a separator-free
   * suffix of `s` that is either the whole of `s` or preceded by a separator,
   * and the whole of `s` when `s` holds no separator.
   */
  lemma LastSegmentIsSuffix(s: string, sep: char)
    ensures var seg := LastSegment(s, sep);
      && sep !in seg
      && |seg| <= |s| && s[|s| - |seg|..] == seg
      && (|seg| < |s| ==> s[|s| - |seg| - 1] == sep)
      && (sep !in s ==> seg == s)
  {
    LastSegmentSuffix(s, sep);
    if sep !in s {
      SplitNoSep(s, sep);
    }
  }

  // ---------------------------------------------------------------------------
  // includes

  /** `needle` occurs in `hay` starting at index `i`. */
  predicate OccursAt(hay: string, needle: string, i: int) {
    0 <= i && i + |needle| <= |hay| && hay[i..i + |needle|] == needle
  }

  /** `hay.includes(needle)`, scanning from the left. */
  function Includes(hay: string, needle: string): bool
    decreases |hay|
  {
    if |needle| <= |hay| && hay[..|needle|] == needle then true
    else if |hay| == 0 then false
    else Includes(hay[1..], needle)
  }

  /** An occurrence in the tail is an occurrence one further on in the whole. */
  lemma OccursShift(hay: string, needle: string, i: int)
    requires |hay| > 0 && i >= 0
    ensures OccursAt(hay[1..], needle, i) <==> OccursAt(hay, needle, i + 1)
  {
    if i + |needle| <= |hay[1..]| {
      assert hay[1..][i..i + |needle|] == hay[i + 1..i + 1 + |needle|];
    }
  }

  /** `Includes` holds exactly when the needle occurs at some offset. */
  lemma {:induction false} IncludesIff(hay: string, needle: string)
    ensures Includes(hay, needle) <==> exists i :: OccursAt(hay, needle, i)
    decreases |hay|
  {
    if |needle| <= |hay| && hay[..|needle|] == needle {
      assert OccursAt(hay, needle, 0);
    } else if |hay| == 0 {
    } else {
      IncludesIff(hay[1..], needle);
      if exists i :: OccursAt(hay[1..], needle, i) {
        var i :| OccursAt(hay[1..], needle, i);
        OccursShift(hay, needle, i);
      }
      if exists i :: OccursAt(hay, needle, i) {
        var i :| OccursAt(hay, needle, i);
        assert i != 0;
        OccursShift(hay, needle, i - 1);
      }
    }
  }

  /** Every string includes the empty string. */
  lemma IncludesEmpty(hay: string)
    ensures Includes(hay, "")
  {
    IncludesIff(hay, "");
    assert OccursAt(hay, "", 0);
  }

  /** An occurrence inside an occurrence is an occurrence in the whole. */
  lemma OccursWithin(hay: string, mid: string, needle: string, o: int, at: int)
    requires OccursAt(hay, mid, o) && OccursAt(mid, needle, at)
    ensures OccursAt(hay, needle, o + at)
  {
    forall j | 0 <= j < |needle| ensures hay[o + at + j] == needle[j] {
      assert needle[j] == mid[at..at + |needle|][j] == mid[at + j];
      assert mid[at + j] == hay[o..o + |mid|][at + j];
    }
    assert hay[o + at..o + at + |needle|] == needle;
  }

  /** Joining distributes over concatenation of non-empty part lists, with one separator between. */
  lemma {:induction false} JoinAppend(a: seq<string>, b: seq<string>, sep: string)
    requires |a| > 0 && |b| > 0
    ensures Join(a + b, sep) == Join(a, sep) + sep + Join(b, sep)
    decreases |a|
  {
    assert (a + b)[0] == a[0];
    assert (a + b)[1..] == a[1..] + b;
    if |a| > 1 {
      JoinAppend(a[1..], b, sep);
    }
  }

  /**
   * Part `k` of a join starts after the earlier parts and one separator per
   * earlier part: at offset 0 for the first part, else at the length of the
   * join of the earlier parts plus one separator.
   */
  lemma JoinAt(parts: seq<string>, sep: string, k: int)
    requires 0 <= k < |parts|
    ensures OccursAt(Join(parts, sep), parts[k], if k == 0 then 0 else |Join(parts[..k], sep)| + |sep|)
  {
    var rest := Join(parts[k..], sep);
    assert parts[k..][0] == parts[k];
    assert OccursAt(rest, parts[k], 0) by {
      if |parts[k..]| > 1 {
        assert rest == parts[k] + (sep + Join(parts[k..][1..], sep));
      }
    }
    if k > 0 {
      var pre := Join(parts[..k], sep) + sep;
      assert parts == parts[..k] + parts[k..];
      JoinAppend(parts[..k], parts[k..], sep);
      assert Join(parts, sep) == pre + rest;
      assert OccursAt(pre + rest, rest, |pre|) by {
        assert (pre + rest)[|pre|..|pre| + |rest|] == rest;
      }
      OccursWithin(pre + rest, rest, parts[k], |pre|, 0);
    }
  }

  // ---------------------------------------------------------------------------
  // toLowerCase

  function LowerChar(c: char): (d: char)
    ensures 'A' <= c <= 'Z' ==> d as int == c as int + 32
    ensures !('A' <= c <= 'Z') ==> d == c
    ensures !('A' <= d <= 'Z')
  {
    if 'A' <= c <= 'Z' then (c as int + 32) as char else c
  }

  /** `s.toLowerCase()` on ASCII letters; other characters are kept. */
  function ToLower(s: string): (r: string)
    ensures |r| == |s|
    ensures forall i :: 0 <= i < |s| ==> r[i] == LowerChar(s[i])
  {
    if |s| == 0 then "" else [LowerChar(s[0])] + ToLower(s[1..])
  }

  /** Lower-casing twice is lower-casing once. */
  lemma ToLowerIdempotent(s: string)
    ensures ToLower(ToLower(s)) == ToLower(s)
  {
  }

  // ---------------------------------------------------------------------------
  // numbers

  function DigitChar(d: nat): (c: char)
    requires d < 10
    ensures '0' <= c <= '9'
  {
    ('0' as int + d) as char
  }

  /** The decimal text of a natural number, as `String(n)` writes it. */
  function DecimalString(n: nat): (s: string)
    ensures |s| >= 1
    ensures forall i :: 0 <= i < |s| ==> '0' <= s[i] <= '9'
  {
    if n < 10 then [DigitChar(n)] else DecimalString(n / 10) + [DigitChar(n % 10)]
  }

  /** The number a run of decimal digits denotes, most significant digit first. */
  function DecimalValue(s: string): nat
    requires forall i :: 0 <= i < |s| ==> '0' <= s[i] <= '9'
    decreases |s|
  {
    if |s| == 0 then 0
    else 10 * DecimalValue(s[..|s| - 1]) + (s[|s| - 1] as int - '0' as int)
  }

  /** `String(n)` reads back as `n`, and starts with `0` only for zero itself. */
  lemma {:induction false} DecimalStringValue(n: nat)
    ensures DecimalValue(DecimalString(n)) == n
    ensures DecimalString(n)[0] == '0' ==> n == 0
    decreases n
  {
    if n >= 10 {
      DecimalStringValue(n / 10);
      var s := DecimalString(n);
      assert s[..|s| - 1] == DecimalString(n / 10);
      assert s[0] == DecimalString(n / 10)[0];
    }
  }

  /** Different numbers have different decimal texts. */
  lemma DecimalStringInjective(a: nat, b: nat)
    requires DecimalString(a) == DecimalString(b)
    ensures a == b
  {
    DecimalStringValue(a);
    DecimalStringValue(b);
  }
}
