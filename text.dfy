/** The Python string operations the pipeline relies on: `strip`, `find`, `rfind`,
    slicing with possibly negative bounds, `lower`, and the lenient extraction of
    a JSON array from free-form generated text. */
module Text {

  /** The characters `str.strip()` removes: those for which `str.isspace()` holds. */
  predicate IsSpace(c: char) {
    var n := c as int;
    (9 <= n <= 13) || (28 <= n <= 32) || n == 0x85 || n == 0xA0 || n == 0x1680
    || (0x2000 <= n <= 0x200A) || n == 0x2028 || n == 0x2029 || n == 0x202F
    || n == 0x205F || n == 0x3000
  }

  /** The first index at or after `from` that does not hold whitespace. */
  function SkipSpaces(s: string, from: nat): (k: nat)
    requires from <= |s|
    ensures from <= k <= |s|
    ensures forall i :: from <= i < k ==> IsSpace(s[i])
    ensures k < |s| ==> !IsSpace(s[k])
    decreases |s| - from
  {
    if from < |s| && IsSpace(s[from]) then SkipSpaces(s, from + 1) else from
  }

  /** The index just past the last non-whitespace character in `s[lo..upto]`, or `lo`. */
  function SkipSpacesBack(s: string, lo: nat, upto: nat): (k: nat)
    requires lo <= upto <= |s|
    ensures lo <= k <= upto
    ensures forall i :: k <= i < upto ==> IsSpace(s[i])
    ensures k > lo ==> !IsSpace(s[k - 1])
    decreases upto
  {
    if lo < upto && IsSpace(s[upto - 1]) then SkipSpacesBack(s, lo, upto - 1) else upto
  }

  /** `s.strip()`: `s` without the whitespace at either end. */
  function Strip(s: string): (r: string)
    ensures var a := SkipSpaces(s, 0);
            var b := SkipSpacesBack(s, a, |s|);
            && r == s[a..b]
            && (forall i :: 0 <= i < a ==> IsSpace(s[i]))
            && (forall i :: b <= i < |s| ==> IsSpace(s[i]))
            && (a < b ==> !IsSpace(s[a]) && !IsSpace(s[b - 1]))
  {
    var a := SkipSpaces(s, 0);
    s[a..SkipSpacesBack(s, a, |s|)]
  }

  /** The first index at or after `from` holding `c`, or -1. */
  function FindFrom(s: string, c: char, from: nat): (r: int)
    requires from <= |s|
    ensures r == -1 || from <= r < |s|
    ensures r >= 0 ==> s[r] == c
    decreases |s| - from
  {
    if from == |s| then -1
    else if s[from] == c then from
    else FindFrom(s, c, from + 1)
  }

  /** `FindFrom` finds the first occurrence, and -1 means there is none. */
  lemma {:induction false} FindFromFirst(s: string, c: char, from: nat)
    requires from <= |s|
    ensures FindFrom(s, c, from) == -1 <==> forall k :: from <= k < |s| ==> s[k] != c
    ensures FindFrom(s, c, from) >= 0 ==> forall k :: from <= k < FindFrom(s, c, from) ==> s[k] != c
    decreases |s| - from
  {
    if from < |s| && s[from] != c {
      FindFromFirst(s, c, from + 1);
    }
  }

  /** The last index below `upto` holding `c`, or -1. */
  function FindBelow(s: string, c: char, upto: nat): (r: int)
    requires upto <= |s|
    ensures -1 <= r < upto
    ensures r >= 0 ==> s[r] == c
  {
    if upto == 0 then -1
    else if s[upto - 1] == c then upto - 1
    else FindBelow(s, c, upto - 1)
  }

  /** `FindBelow` finds the last occurrence, and -1 means there is none. */
  lemma {:induction false} FindBelowLast(s: string, c: char, upto: nat)
    requires upto <= |s|
    ensures FindBelow(s, c, upto) == -1 <==> forall k :: 0 <= k < upto ==> s[k] != c
    ensures FindBelow(s, c, upto) >= 0 ==> forall k :: FindBelow(s, c, upto) < k < upto ==> s[k] != c
  {
    if upto > 0 && s[upto - 1] != c {
      FindBelowLast(s, c, upto - 1);
    }
  }

  /** `s.find(c)`: the index of the first occurrence, or -1. */
  function Find(s: string, c: char): (r: int)
    ensures -1 <= r < |s|
    ensures r >= 0 ==> s[r] == c
  {
    FindFrom(s, c, 0)
  }

  /** `s.rfind(c)`: the index of the last occurrence, or -1. */
  function RFind(s: string, c: char): (r: int)
    ensures -1 <= r < |s|
    ensures r >= 0 ==> s[r] == c
  {
    FindBelow(s, c, |s|)
  }

  /** `find` gives the first occurrence, and -1 exactly when there is none. */
  lemma FindFirst(s: string, c: char)
    ensures Find(s, c) == -1 <==> forall k :: 0 <= k < |s| ==> s[k] != c
    ensures Find(s, c) >= 0 ==> forall k :: 0 <= k < Find(s, c) ==> s[k] != c
  {
    FindFromFirst(s, c, 0);
  }

  /** `rfind` gives the last occurrence, and -1 exactly when there is none. */
  lemma RFindLast(s: string, c: char)
    ensures RFind(s, c) == -1 <==> forall k :: 0 <= k < |s| ==> s[k] != c
    ensures RFind(s, c) >= 0 ==> forall k :: RFind(s, c) < k < |s| ==> s[k] != c
  {
    FindBelowLast(s, c, |s|);
  }

  /** Searching a suffix from the right finds the same occurrence, shifted, if it lies
      in the suffix. */
  lemma RFindSuffix(t: string, c: char, i: nat)
    requires i <= |t|
    ensures RFind(t[i..], c) == (if RFind(t, c) >= i then RFind(t, c) - i else -1)
  {
    var j := RFind(t, c);
    var m := RFind(t[i..], c);
    RFindLast(t, c);
    RFindLast(t[i..], c);
    if m >= 0 {
      assert t[i + m] == c;
    }
    if j >= i {
      assert t[i..][j - i] == c;
    }
  }

  /** Where a Python slice bound `k` falls in a string of length `n`: negative bounds
      count from the end, and bounds outside the string are clamped. */
  function SliceBound(n: nat, k: int): (r: nat)
    ensures r <= n
    ensures 0 <= k <= n ==> r == k
    ensures -(n as int) <= k < 0 ==> r as int == n as int + k
  {
    if k < 0 then (if n + k < 0 then 0 else n + k)
    else if k > n then n
    else k
  }

  /** `s[k:]` */
  function SliceFrom(s: string, k: int): string {
    s[SliceBound(|s|, k)..]
  }

  /** `s[:k]` */
  function SliceTo(s: string, k: int): string {
    s[..SliceBound(|s|, k)]
  }

  predicate StartsWith(s: string, c: char) {
    |s| > 0 && s[0] == c
  }

  predicate EndsWith(s: string, c: char) {
    |s| > 0 && s[|s| - 1] == c
  }

  /** `t if t.startswith('[') else t[t.find('['):]` */
  function FromFirstOpen(t: string): (u: string)
    ensures Find(t, '[') >= 0 ==> u == t[Find(t, '[')..]
    ensures Find(t, '[') == -1 ==> u == if |t| == 0 then "" else [t[|t| - 1]]
  {
    if StartsWith(t, '[') then t else SliceFrom(t, Find(t, '['))
  }

  /** `u if u.endswith(']') else u[:u.rfind(']') + 1]` */
  function ToLastClose(u: string): (r: string)
    ensures RFind(u, ']') >= 0 ==> r == u[..RFind(u, ']') + 1]
    ensures RFind(u, ']') == -1 ==> r == ""
  {
    if EndsWith(u, ']') then u else SliceTo(u, RFind(u, ']') + 1)
  }

  lemma CutWithBracketPair(t: string)
    requires 0 <= Find(t, '[') < RFind(t, ']')
    ensures ToLastClose(FromFirstOpen(t)) == t[Find(t, '[')..RFind(t, ']') + 1]
  {
    RFindSuffix(t, ']', Find(t, '['));
  }

  lemma CutWithoutOpen(t: string)
    requires Find(t, '[') == -1
    ensures ToLastClose(FromFirstOpen(t)) == if EndsWith(t, ']') then "]" else ""
  {
    var u := FromFirstOpen(t);
    RFindLast(u, ']');
    assert |u| == 1 ==> (RFind(u, ']') == 0 <==> u[0] == ']');
  }

  lemma CutWithCloseBeforeOpen(t: string)
    requires 0 <= Find(t, '[') && RFind(t, ']') < Find(t, '[')
    ensures ToLastClose(FromFirstOpen(t)) == ""
  {
    RFindSuffix(t, ']', Find(t, '['));
  }

  /** The text `generate_qa_pairs` hands to the JSON decoder: the stripped response,
      cut from its first `[` to its last `]`; a response with no `[` is cut to its
      last character, and then to nothing unless that character is `]`. */
  function LenientArrayText(response: string): (r: string)
    ensures var t := Strip(response);
            var i := Find(t, '[');
            var j := RFind(t, ']');
            && (0 <= i < j ==> r == t[i..j + 1])
            && (i == -1 ==> r == (if EndsWith(t, ']') then "]" else ""))
            && (0 <= i && j < i ==> r == "")
  {
    var t := Strip(response);
    CutCases(t);
    ToLastClose(FromFirstOpen(t))
  }

  /** The three cases of the cut, by where the first `[` and the last `]` are. */
  lemma CutCases(t: string)
    ensures var i := Find(t, '[');
            var j := RFind(t, ']');
            var r := ToLastClose(FromFirstOpen(t));
            && (0 <= i < j ==> r == t[i..j + 1])
            && (i == -1 ==> r == (if EndsWith(t, ']') then "]" else ""))
            && (0 <= i && j < i ==> r == "")
  {
    var i, j := Find(t, '['), RFind(t, ']');
    if 0 <= i < j {
      CutWithBracketPair(t);
    } else if i == -1 {
      CutWithoutOpen(t);
    } else if j < i {
      CutWithCloseBeforeOpen(t);
    }
  }

  /** A response that is already a bracketed array, with nothing around it, reaches
      the decoder unchanged. */
  lemma BracketedPassesThrough(response: string)
    requires StartsWith(response, '[') && EndsWith(response, ']')
    ensures LenientArrayText(response) == response
  {
    assert !IsSpace(response[0]) && !IsSpace(response[|response| - 1]);
  }

  /** Without a `[` followed later by a `]`, the decoder only ever sees "" or "]". */
  lemma NoArrayDecodesBareText(response: string)
    requires var t := Strip(response); !(0 <= Find(t, '[') < RFind(t, ']'))
    ensures LenientArrayText(response) == "" || LenientArrayText(response) == "]"
  {
  }

  function LowerChar(c: char): char {
    if 'A' <= c <= 'Z' then (c as int + 32) as char else c
  }

  /** `s.lower()` on ASCII letters. */
  function Lower(s: string): (r: string)
    ensures |r| == |s|
    ensures forall i :: 0 <= i < |s| ==> r[i] == LowerChar(s[i])
  {
    seq(|s|, i requires 0 <= i < |s| => LowerChar(s[i]))
  }

  /** The guard of both versions of `translate_content`. */
  predicate IsEnglish(language: string) {
    Lower(language) == "english"
  }

  /** The guard accepts exactly the seven-letter word "english" in any mix of cases. */
  lemma IsEnglishCaseInsensitive(language: string)
    ensures IsEnglish(language) <==>
              |language| == 7 &&
              forall i :: 0 <= i < 7 ==> language[i] == "english"[i] || language[i] == "ENGLISH"[i]
  {
    if IsEnglish(language) {
      forall i | 0 <= i < 7 ensures language[i] == "english"[i] || language[i] == "ENGLISH"[i] {
        assert LowerChar(language[i]) == "english"[i];
      }
    }
    if |language| == 7 &&
       forall i :: 0 <= i < 7 ==> language[i] == "english"[i] || language[i] == "ENGLISH"[i] {
      assert Lower(language) == "english";
    }
  }
}
