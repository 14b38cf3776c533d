/** The two C library string routines the address normaliser relies on:
    `strchr` (search for a character) and `snprintf` into a fixed-size buffer. */
module CStrings {
  import opened Wrappers

  /** The bytes of a NUL-terminated C string, without the terminator: each
      character stands for one byte, so its code is below 256, and a C string
      cannot contain a NUL before its end. */
  type CString = s: string | IsCString(s)

  ghost predicate IsCString(s: string)
  {
    '\0' !in s && forall k :: 0 <= k < |s| ==> s[k] as int < 256
  }

  /** `*s`: the first character of a C string, which is the terminating NUL
      when the string is empty. */
  function Deref(s: CString): (ch: char)
    ensures ch == '\0' <==> |s| == 0
    ensures |s| > 0 ==> ch == s[0]
  {
    if |s| == 0 then '\0' else s[0]
  }

  /** `strchr(s + from, c)` for a non-NUL `c`: the index of the first `c` at or
      after position `from`, or None for a NULL result. */
  function Find(s: string, c: char, from: nat): (r: Option<nat>)
    requires c != '\0'
    ensures r.Some? ==> from <= r.value < |s| && s[r.value] == c
    ensures r.Some? ==> forall j :: from <= j < r.value ==> s[j] != c
    ensures r.None? ==> forall j :: from <= j < |s| ==> s[j] != c
    decreases |s| - from
  {
    if from >= |s| then None
    else if s[from] == c then Some(from)
    else Find(s, c, from + 1)
  }

  /** Number of occurrences of `c` in `s`: a reference definition the
      search-based classification is measured against. */
  function Count(s: string, c: char): nat
  {
    if |s| == 0 then 0
    else (if s[0] == c then 1 else 0) + Count(s[1..], c)
  }

  /** `c` occurs at two distinct positions of `s`. */
  ghost predicate OccursTwice(s: string, c: char)
  {
    exists i, j :: 0 <= i < j < |s| && s[i] == c && s[j] == c
  }

  lemma {:induction false} CountAtLeastOne(s: string, c: char)
    ensures Count(s, c) >= 1 <==> c in s
  {
    if |s| > 0 {
      CountAtLeastOne(s[1..], c);
      assert s == [s[0]] + s[1..];
    }
  }

  lemma {:induction false} CountAtLeastTwo(s: string, c: char)
    ensures Count(s, c) >= 2 <==> OccursTwice(s, c)
  {
    if |s| > 0 {
      var t := s[1..];
      CountAtLeastOne(t, c);
      CountAtLeastTwo(t, c);
      if OccursTwice(s, c) {
        var i, j :| 0 <= i < j < |s| && s[i] == c && s[j] == c;
        if i == 0 {
          assert t[j - 1] == c;
        } else {
          assert t[i - 1] == c && t[j - 1] == c;
          assert OccursTwice(t, c);
        }
      }
      if Count(s, c) >= 2 {
        if s[0] == c {
          var k :| 0 <= k < |t| && t[k] == c;
          assert s[0] == c && s[k + 1] == c;
        } else {
          var i, j :| 0 <= i < j < |t| && t[i] == c && t[j] == c;
          assert s[i + 1] == c && s[j + 1] == c;
        }
      }
    }
  }

  /** Counting distributes over concatenation. */
  lemma {:induction false} CountConcat(a: string, b: string, c: char)
    ensures Count(a + b, c) == Count(a, c) + Count(b, c)
  {
    if |a| > 0 {
      CountConcat(a[1..], b, c);
      assert (a + b)[0] == a[0];
      assert (a + b)[1..] == a[1..] + b;
    } else {
      assert a + b == b;
    }
  }

  /** `snprintf(buf, size, ...)` with the formatted text `text`: at most
      `size - 1` characters are kept so that the terminating NUL still fits;
      the rest is cut off. */
  function Snprintf(size: nat, text: CString): (r: CString)
    requires size > 0
    ensures |r| < size
    ensures r <= text
    ensures |text| < size ==> r == text
    ensures |text| >= size ==> |r| == size - 1
  {
    if |text| < size then text
    else
      var kept := text[..size - 1];
      assert forall k :: 0 <= k < |kept| ==> kept[k] == text[k];
      kept
  }
}
