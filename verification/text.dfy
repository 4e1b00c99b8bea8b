/** String helpers with Python's `str.strip` semantics. */
module Text {

  /** Python's `str.isspace()` for one character. */
  predicate IsSpace(c: char)
  {
    var n := c as int;
    n == 0x20 || 0x09 <= n <= 0x0d || 0x1c <= n <= 0x1f || n == 0x85 || n == 0xa0 || n == 0x1680 ||
    0x2000 <= n <= 0x200a || n == 0x2028 || n == 0x2029 || n == 0x202f || n == 0x205f || n == 0x3000
  }

  /** The first position at or after `i` whose character is kept (the left scan of `str.strip`). */
  function FirstKept(s: string, drop: char -> bool, i: nat): (j: nat)
    requires i <= |s|
    ensures i <= j <= |s|
    ensures forall k :: i <= k < j ==> drop(s[k])
    ensures j < |s| ==> !drop(s[j])
    decreases |s| - i
  {
    if i == |s| || !drop(s[i]) then i else FirstKept(s, drop, i + 1)
  }

  /** The end of the kept part: scanning left from `j`, stopping at `lo` (the right scan of `str.strip`). */
  function LastKept(s: string, drop: char -> bool, lo: nat, j: nat): (e: nat)
    requires lo <= j <= |s|
    ensures lo <= e <= j
    ensures forall k :: e <= k < j ==> drop(s[k])
    ensures lo < e ==> !drop(s[e - 1])
    decreases j
  {
    if j == lo || !drop(s[j - 1]) then j else LastKept(s, drop, lo, j - 1)
  }

  /** `s.strip(chars)`: `s` without its leading and trailing run of dropped characters. */
  function Strip(s: string, drop: char -> bool): (r: string)
    ensures |r| <= |s|
    ensures r != [] ==> !drop(r[0]) && !drop(r[|r| - 1])
    ensures r == [] <==> forall k :: 0 <= k < |s| ==> drop(s[k])
    ensures forall c :: c in r ==> c in s
    ensures exists a, b ::
              && 0 <= a <= b <= |s| && r == s[a..b]
              && (forall k :: 0 <= k < a ==> drop(s[k]))
              && (forall k :: b <= k < |s| ==> drop(s[k]))
  {
    var a := FirstKept(s, drop, 0);
    s[a..LastKept(s, drop, a, |s|)]
  }

  /** `s.strip()`. */
  function Trim(s: string): string
  {
    Strip(s, IsSpace)
  }
}
