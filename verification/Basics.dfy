/** Values and small facts shared by every part of the node. */
module Basics {

  datatype Option<+T> = None | Some(value: T)

  datatype Result<+T, +E> = Ok(value: T) | Err(error: E)

  /** What a decoder that looks for the top-level key `job_type` finds in a text. */
  datatype JobField =
    | NotAnObject
    | Absent
    | Null
    | Text(value: string)
    | NotText(rendering: string)

  /** A text, known by its characters and by what the `job_type` probe reads in it. */
  datatype Doc = Doc(content: string, job: JobField)

  /** Upper-casing as far as it can produce letters of the ASCII alphabet: besides a..z, the
      dotless i (U+0131) is the only other character whose upper case is a letter of FAILED or ERROR. */
  function UpperChar(c: char): char {
    if 'a' <= c <= 'z' then (c as int - 'a' as int + 'A' as int) as char
    else if c == '\U{131}' then 'I'
    else c
  }

  function ToUpper(s: string): (u: string)
    ensures |u| == |s|
  {
    if s == "" then "" else [UpperChar(s[0])] + ToUpper(s[1..])
  }

  /** The letters an upper-case one stands for when case is ignored. */
  predicate SameLetter(c: char, upper: char) {
    c == upper || c as int == upper as int + 32 || (upper == 'I' && c == '\U{131}')
  }

  /** Letter by letter the word, ignoring case. */
  predicate SpelledLike(s: string, word: string) {
    |s| == |word| && forall i :: 0 <= i < |s| ==> SameLetter(s[i], word[i])
  }

  /** Two texts have the same upper case as a word exactly if they spell it: upper-casing decides spelling. */
  lemma {:induction false} UpperSpells(s: string, word: string)
    requires forall i :: 0 <= i < |word| ==> 'A' <= word[i] <= 'Z'
    ensures ToUpper(s) == word <==> SpelledLike(s, word)
  {
    if |s| != |word| {
    } else if s == "" {
    } else {
      UpperSpells(s[1..], word[1..]);
      assert s == [s[0]] + s[1..] && word == [word[0]] + word[1..];
      assert ToUpper(s) == [UpperChar(s[0])] + ToUpper(s[1..]);
      assert ToUpper(s) == word <==> UpperChar(s[0]) == word[0] && ToUpper(s[1..]) == word[1..];
      assert UpperChar(s[0]) == word[0] <==> SameLetter(s[0], word[0]);
      assert SpelledLike(s, word) <==> SameLetter(s[0], word[0]) && SpelledLike(s[1..], word[1..]) by {
        if SameLetter(s[0], word[0]) && SpelledLike(s[1..], word[1..]) {
          forall i | 0 <= i < |s| ensures SameLetter(s[i], word[i]) {
            assert i > 0 ==> s[i] == s[1..][i - 1] && word[i] == word[1..][i - 1];
          }
        }
        if SpelledLike(s, word) {
          forall i | 0 <= i < |s[1..]| ensures SameLetter(s[1..][i], word[1..][i]) {
            assert SameLetter(s[i + 1], word[i + 1]);
          }
        }
      }
    }
  }

  function Sum(s: seq<int>): int {
    if s == [] then 0 else s[0] + Sum(s[1..])
  }

  lemma {:induction false} SumAppend(s: seq<int>, t: seq<int>)
    ensures Sum(s + t) == Sum(s) + Sum(t)
  {
    if s == [] {
      assert s + t == t;
    } else {
      assert (s + t)[1..] == s[1..] + t;
      SumAppend(s[1..], t);
    }
  }

  lemma {:induction false} SumNonNegative(s: seq<int>)
    requires forall k :: 0 <= k < |s| ==> s[k] >= 0
    ensures Sum(s) >= 0
  {
    if s == [] {
    } else {
      SumNonNegative(s[1..]);
    }
  }

  /** Lowering every term lowers the sum. */
  lemma {:induction false} SumMonotone(s: seq<int>, t: seq<int>)
    requires |s| == |t|
    requires forall k :: 0 <= k < |s| ==> s[k] <= t[k]
    ensures Sum(s) <= Sum(t)
  {
    if s == [] {
    } else {
      SumMonotone(s[1..], t[1..]);
    }
  }

  /** Lowering every term, and the one at k by at least d, lowers the sum by at least d. */
  lemma {:induction false} SumDrop(s: seq<int>, t: seq<int>, k: nat, d: int)
    requires |s| == |t| && k < |s|
    requires forall l :: 0 <= l < |s| ==> s[l] <= t[l]
    requires s[k] + d <= t[k]
    ensures Sum(s) + d <= Sum(t)
  {
    if k == 0 {
      SumMonotone(s[1..], t[1..]);
    } else {
      SumDrop(s[1..], t[1..], k - 1, d);
    }
  }

  /** Replacing one term changes the sum by the difference. */
  lemma {:induction false} SumReplace(s: seq<int>, k: nat, v: int)
    requires k < |s|
    ensures Sum(s[k := v]) == Sum(s) - s[k] + v
  {
    if k == 0 {
      assert s[k := v][1..] == s[1..];
    } else {
      assert s[k := v][1..] == s[1..][k - 1 := v];
      SumReplace(s[1..], k - 1, v);
    }
  }
}
