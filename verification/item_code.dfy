/**
 * The item-code generator (`generar_codigo`): the upper-cased name is split
 * into words, and the code is built from the first two characters of the
 * first word, the last word when it differs from the first, and a random
 * number, which is passed in.
 */
module ItemCode {
  import opened Common
  import opened Text

  /** `\w` restricted to ASCII: letters, digits and the underscore. */
  predicate IsWordChar(c: char)
  {
    'A' <= c <= 'Z' || 'a' <= c <= 'z' || '0' <= c <= '9' || c == '_'
  }

  /** `str.upper()` on ASCII letters; every other character is kept. */
  function UpperChar(c: char): char
  {
    if 'a' <= c <= 'z' then (c as int - 32) as char else c
  }

  function Upper(s: string): (u: string)
    ensures |u| == |s|
    ensures forall k :: 0 <= k < |s| ==> u[k] == UpperChar(s[k])
  {
    if s == [] then [] else [UpperChar(s[0])] + Upper(s[1..])
  }

  /** The length of the run of word characters that starts `s`. */
  function RunLength(s: string): (n: nat)
    ensures n <= |s|
    ensures forall k :: 0 <= k < n ==> IsWordChar(s[k])
    ensures n < |s| ==> !IsWordChar(s[n])
  {
    if s == [] || !IsWordChar(s[0]) then 0 else 1 + RunLength(s[1..])
  }

  /** `re.findall(r'\b\w+', s)`: the maximal runs of word characters, left to right. */
  function Words(s: string): seq<string>
    decreases |s|
  {
    if s == [] then []
    else if !IsWordChar(s[0]) then Words(s[1..])
    else
      var n := RunLength(s);
      [s[..n]] + Words(s[n..])
  }

  // ---------------------------------------------------------------- what the words are

  /** Every word is non-empty and made of word characters only. */
  lemma {:induction false} WordsAreRuns(s: string)
    ensures forall n :: 0 <= n < |Words(s)| ==>
      Words(s)[n] != [] && forall k :: 0 <= k < |Words(s)[n]| ==> IsWordChar(Words(s)[n][k])
    decreases |s|
  {
    if s != [] {
      if !IsWordChar(s[0]) {
        WordsAreRuns(s[1..]);
      } else {
        WordsAreRuns(s[RunLength(s)..]);
      }
    }
  }

  lemma RunLengthStopsAt(a: string, c: char, b: string)
    requires !IsWordChar(c)
    ensures RunLength(a + [c] + b) == RunLength(a)
  {
    var n := RunLength(a + [c] + b);
    var m := RunLength(a);
    if m < |a| {
      assert (a + [c] + b)[m] == a[m];
    } else {
      assert (a + [c] + b)[|a|] == c;
    }
  }

  /** A non-word character separates words: the words of `a + [c] + b` are those of `a` followed by those of `b`. */
  lemma {:induction false} WordsSplit(a: string, c: char, b: string)
    requires !IsWordChar(c)
    ensures Words(a + [c] + b) == Words(a) + Words(b)
    decreases |a|
  {
    var s := a + [c] + b;
    if a == [] {
      assert s[1..] == b;
    } else if !IsWordChar(a[0]) {
      assert s[1..] == a[1..] + [c] + b;
      WordsSplit(a[1..], c, b);
    } else {
      RunLengthStopsAt(a, c, b);
      var n := RunLength(a);
      assert s[..n] == a[..n];
      assert s[n..] == a[n..] + [c] + b;
      WordsSplit(a[n..], c, b);
    }
  }

  /** The word characters of `s`, in order. */
  function WordChars(s: string): string
  {
    if s == [] then [] else (if IsWordChar(s[0]) then [s[0]] else []) + WordChars(s[1..])
  }

  function Concat(ws: seq<string>): string
  {
    if ws == [] then [] else ws[0] + Concat(ws[1..])
  }

  lemma {:induction false} WordCharsOfRun(s: string, n: nat)
    requires n <= |s| && forall k :: 0 <= k < n ==> IsWordChar(s[k])
    ensures WordChars(s) == s[..n] + WordChars(s[n..])
  {
    if n > 0 {
      WordCharsOfRun(s[1..], n - 1);
      assert s[1..][n - 1..] == s[n..];
      assert s[..n] == [s[0]] + s[1..][..n - 1];
    }
  }

  /** Splitting into words loses no word character and invents none. */
  lemma {:induction false} WordsKeepWordChars(s: string)
    ensures Concat(Words(s)) == WordChars(s)
    decreases |s|
  {
    if s != [] {
      if !IsWordChar(s[0]) {
        WordsKeepWordChars(s[1..]);
      } else {
        var n := RunLength(s);
        WordsKeepWordChars(s[n..]);
        WordCharsOfRun(s, n);
        assert ([s[..n]] + Words(s[n..]))[1..] == Words(s[n..]);
      }
    }
  }

  // ---------------------------------------------------------------- decimal numbers

  function DigitChar(d: nat): char
    requires d < 10
  {
    ('0' as int + d) as char
  }

  /** `str(n)` for a natural number. */
  function NatToString(n: nat): string
  {
    if n < 10 then [DigitChar(n)] else NatToString(n / 10) + [DigitChar(n % 10)]
  }

  function DigitValue(c: char): int
  {
    c as int - '0' as int
  }

  /** The number a string of decimal digits denotes. */
  function DigitsValue(s: string): int
  {
    if s == [] then 0 else DigitsValue(s[..|s| - 1]) * 10 + DigitValue(s[|s| - 1])
  }

  /** `str(n)` is made of digits and reads back as `n`. */
  lemma {:induction false} NatToStringRoundTrip(n: nat)
    ensures forall k :: 0 <= k < |NatToString(n)| ==> '0' <= NatToString(n)[k] <= '9'
    ensures DigitsValue(NatToString(n)) == n
  {
    if n >= 10 {
      NatToStringRoundTrip(n / 10);
      var s := NatToString(n);
      assert s[..|s| - 1] == NatToString(n / 10);
    }
  }

  /** `str(n)` has two digits for 10..99 and four for 1000..9999. */
  lemma TwoAndFourDigits(n: nat)
    ensures 10 <= n <= 99 ==> |NatToString(n)| == 2
    ensures 1000 <= n <= 9999 ==> |NatToString(n)| == 4
  {
    if 10 <= n <= 99 {
      assert |NatToString(n / 10)| == 1;
    }
    if 1000 <= n <= 9999 {
      var a, b, c := n / 10, n / 10 / 10, n / 10 / 10 / 10;
      assert 1 <= c < 10 && 10 <= b < 100 && 100 <= a < 1000;
      assert |NatToString(c)| == 1;
      assert |NatToString(b)| == 2;
      assert |NatToString(a)| == 3;
    }
  }

  // ---------------------------------------------------------------- the code

  /** `palabras[0][:2]`. */
  function FirstTwo(w: string): (r: string)
    ensures |r| == (if |w| < 2 then |w| else 2) && r == w[..|r|]
  {
    if |w| <= 2 then w else w[..2]
  }

  predicate IsUnderscore(c: char)
  {
    c == '_'
  }

  /** The code built from a non-empty list of words and the two-digit number. */
  function CodeFromWords(palabras: seq<string>, rnd2: int): string
    requires palabras != [] && 10 <= rnd2 <= 99
  {
    var primera := FirstTwo(palabras[0]);
    var ultima := if palabras[|palabras| - 1] != palabras[0] then palabras[|palabras| - 1] else "";
    var codigo := Strip(primera + "_" + ultima, IsUnderscore);
    if ultima != "" then codigo + "_" + NatToString(rnd2) else primera + "_" + NatToString(rnd2)
  }

  /**
   * `generar_codigo(nombre)` with `rnd4` and `rnd2` the values the two
   * `random.randint` calls would return.
   */
  function GenerateCode(nombre: string, rnd4: int, rnd2: int): string
    requires 1000 <= rnd4 <= 9999 && 10 <= rnd2 <= 99
  {
    var palabras := Words(Upper(nombre));
    if palabras == [] then "PROD_" + NatToString(rnd4) else CodeFromWords(palabras, rnd2)
  }

  /** A name with no word yields `PROD_` and four digits that read as the number in 1000..9999. */
  lemma NoWordsCode(nombre: string, rnd4: int, rnd2: int)
    requires 1000 <= rnd4 <= 9999 && 10 <= rnd2 <= 99
    requires forall k :: 0 <= k < |nombre| ==> !IsWordChar(nombre[k])
    ensures var code := GenerateCode(nombre, rnd4, rnd2);
      && |code| == 9 && code[..5] == "PROD_"
      && (forall k :: 5 <= k < 9 ==> '0' <= code[k] <= '9')
      && 1000 <= DigitsValue(code[5..]) <= 9999
  {
    NoWordCharsNoWords(nombre);
    NatToStringRoundTrip(rnd4);
    TwoAndFourDigits(rnd4);
    var code := GenerateCode(nombre, rnd4, rnd2);
    assert code == "PROD_" + NatToString(rnd4);
    assert code[5..] == NatToString(rnd4);
  }

  lemma {:induction false} NoWordCharsNoWords(s: string)
    requires forall k :: 0 <= k < |s| ==> !IsWordChar(s[k])
    ensures Words(Upper(s)) == []
  {
    assert forall k :: 0 <= k < |s| ==> Upper(s)[k] == UpperChar(s[k]);
    NoWords(Upper(s));
  }

  lemma {:induction false} NoWords(s: string)
    requires forall k :: 0 <= k < |s| ==> !IsWordChar(s[k])
    ensures Words(s) == []
  {
    if s != [] {
      NoWords(s[1..]);
    }
  }

  /**
   * The code built from words ends in `_` and two digits reading as the number
   * in 10..99. With one distinct word (the last equal to the first) it is the
   * first two characters of the first word, `_`, and the number; otherwise the
   * first two characters, `_` and the last word, stripped of underscores at
   * both ends, then `_` and the number.
   */
  lemma CodeFromWordsShape(palabras: seq<string>, rnd2: int)
    requires palabras != [] && 10 <= rnd2 <= 99
    requires forall n :: 0 <= n < |palabras| ==> palabras[n] != []
    ensures var code := CodeFromWords(palabras, rnd2);
      && |code| >= 3 && code[|code| - 3] == '_'
      && '0' <= code[|code| - 2] <= '9' && '0' <= code[|code| - 1] <= '9'
      && 10 <= DigitsValue(code[|code| - 2..]) <= 99
    ensures palabras[|palabras| - 1] == palabras[0] ==>
      CodeFromWords(palabras, rnd2) == FirstTwo(palabras[0]) + "_" + NatToString(rnd2)
    ensures palabras[|palabras| - 1] != palabras[0] ==>
      CodeFromWords(palabras, rnd2) ==
        Strip(FirstTwo(palabras[0]) + "_" + palabras[|palabras| - 1], IsUnderscore) + "_" + NatToString(rnd2)
  {
    NatToStringRoundTrip(rnd2);
    TwoAndFourDigits(rnd2);
    var digits := NatToString(rnd2);
    var code := CodeFromWords(palabras, rnd2);
    var head := if palabras[|palabras| - 1] != palabras[0]
      then Strip(FirstTwo(palabras[0]) + "_" + palabras[|palabras| - 1], IsUnderscore)
      else FirstTwo(palabras[0]);
    assert code == head + "_" + digits;
    assert code[|code| - 2..] == digits;
  }

  /** A name with words yields the code built from the words of its upper-cased form. */
  lemma WordsCode(nombre: string, rnd4: int, rnd2: int)
    requires 1000 <= rnd4 <= 9999 && 10 <= rnd2 <= 99
    requires exists k :: 0 <= k < |nombre| && IsWordChar(nombre[k])
    ensures Words(Upper(nombre)) != []
    ensures GenerateCode(nombre, rnd4, rnd2) == CodeFromWords(Words(Upper(nombre)), rnd2)
  {
    var k :| 0 <= k < |nombre| && IsWordChar(nombre[k]);
    var u := Upper(nombre);
    assert IsWordChar(u[k]);
    WordsKeepWordChars(u);
    WordCharsHasWordChar(u, k);
  }

  lemma {:induction false} WordCharsHasWordChar(s: string, k: nat)
    requires k < |s| && IsWordChar(s[k])
    ensures WordChars(s) != []
  {
    if k > 0 && !IsWordChar(s[0]) {
      WordCharsHasWordChar(s[1..], k - 1);
    }
  }

  /** The characters a generated code is made of: upper-case ASCII letters, digits and `_`. */
  predicate CodeChar(c: char)
  {
    'A' <= c <= 'Z' || '0' <= c <= '9' || c == '_'
  }

  lemma ConcatCodeChars(a: string, b: string)
    requires forall c :: c in a ==> CodeChar(c)
    requires forall c :: c in b ==> CodeChar(c)
    ensures forall c :: c in a + b ==> CodeChar(c)
  {
  }

  /** Every character of a code built from words holds only upper-case letters, digits and `_` when its words do. */
  lemma CodeFromWordsAlphabet(palabras: seq<string>, rnd2: int)
    requires palabras != [] && 10 <= rnd2 <= 99
    requires forall n, c :: 0 <= n < |palabras| && c in palabras[n] ==> CodeChar(c)
    ensures forall c :: c in CodeFromWords(palabras, rnd2) ==> CodeChar(c)
  {
    var digits := NatToString(rnd2);
    NatToStringRoundTrip(rnd2);
    assert forall c :: c in digits ==> CodeChar(c);
    var first := palabras[0];
    var last := palabras[|palabras| - 1];
    var primera := FirstTwo(first);
    assert forall c :: c in first ==> CodeChar(c);
    assert forall c :: c in primera ==> CodeChar(c);
    ConcatCodeChars(primera, "_");
    if last != first && last != "" {
      assert forall c :: c in last ==> CodeChar(c);
      var joined := primera + "_" + last;
      ConcatCodeChars(primera + "_", last);
      var codigo := Strip(joined, IsUnderscore);
      assert forall c :: c in codigo ==> CodeChar(c);
      ConcatCodeChars(codigo, "_");
      ConcatCodeChars(codigo + "_", digits);
      assert CodeFromWords(palabras, rnd2) == codigo + "_" + digits;
    } else {
      ConcatCodeChars(primera + "_", digits);
      assert CodeFromWords(palabras, rnd2) == primera + "_" + digits;
    }
  }

  /** The words of an upper-cased string hold only upper-case letters, digits and `_`. */
  lemma {:induction false} WordsAlphabet(u: string)
    requires forall k :: 0 <= k < |u| ==> !('a' <= u[k] <= 'z')
    ensures forall n, c :: 0 <= n < |Words(u)| && c in Words(u)[n] ==> CodeChar(c)
    decreases |u|
  {
    if u != [] {
      if !IsWordChar(u[0]) {
        WordsAlphabet(u[1..]);
      } else {
        WordsAlphabet(u[RunLength(u)..]);
      }
    }
  }

  /**
   * Every character of a code generated from an ASCII name is an upper-case
   * letter, a digit or `_` (on other names Python's `\w` and `upper()` reach
   * beyond ASCII, which this model does not follow).
   */
  lemma CodeAlphabet(nombre: string, rnd4: int, rnd2: int)
    requires 1000 <= rnd4 <= 9999 && 10 <= rnd2 <= 99
    requires forall k :: 0 <= k < |nombre| ==> nombre[k] as int < 128
    ensures forall c :: c in GenerateCode(nombre, rnd4, rnd2) ==> CodeChar(c)
  {
    var u := Upper(nombre);
    var ws := Words(u);
    if ws == [] {
      NatToStringRoundTrip(rnd4);
    } else {
      WordsAlphabet(u);
      CodeFromWordsAlphabet(ws, rnd2);
    }
  }

  /** `create_item`: the generator runs only when the submitted code is missing or empty, and never yields an empty code. */
  function ResolveItemCode(code: Option<string>, name: string, rnd4: int, rnd2: int): (r: string)
    requires 1000 <= rnd4 <= 9999 && 10 <= rnd2 <= 99
    ensures code.Some? && code.value != "" ==> r == code.value
    ensures code.None? || code.value == "" ==> r == GenerateCode(name, rnd4, rnd2)
    ensures r != ""
  {
    if code.None? || code.value == "" then
      var generated := GenerateCode(name, rnd4, rnd2);
      assert generated != "" by {
        var ws := Words(Upper(name));
        if ws != [] {
          WordsAreRuns(Upper(name));
          CodeFromWordsShape(ws, rnd2);
        }
      }
      generated
    else code.value
  }
}
