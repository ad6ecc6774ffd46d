/** The string operations the agent relies on: ASCII case folding, substring
    search, and decimal integers as Python's str() and int() write and read them. */
module Text {
  import opened Collections

  function LowerChar(c: char): char
  {
    if 'A' <= c <= 'Z' then (c as int + 32) as char else c
  }

  function UpperChar(c: char): char
  {
    if 'a' <= c <= 'z' then (c as int - 32) as char else c
  }

  function Lower(s: string): string
  {
    seq(|s|, i requires 0 <= i < |s| => LowerChar(s[i]))
  }

  function Upper(s: string): string
  {
    seq(|s|, i requires 0 <= i < |s| => UpperChar(s[i]))
  }

  predicate OccursAt(text: string, term: string, i: nat)
  {
    i + |term| <= |text| && text[i..i + |term|] == term
  }

  predicate Contains(text: string, term: string)
  {
    exists i | 0 <= i <= |text| :: OccursAt(text, term, i)
  }

  predicate ContainsAny(text: string, terms: seq<string>)
  {
    exists k | 0 <= k < |terms| :: Contains(text, terms[k])
  }

  // ---------- Decimal integers ----------

  function Digit(d: nat): char
    requires d < 10
  {
    (d + '0' as int) as char
  }

  function Digits(n: nat): string
  {
    if n < 10 then [Digit(n)] else Digits(n / 10) + [Digit(n % 10)]
  }

  /** str(n) */
  function Decimal(n: int): string
  {
    if n < 0 then "-" + Digits(-n) else Digits(n)
  }

  function ReadDigits(s: string): Option<nat>
  {
    if s == [] then None
    else
      var last := s[|s| - 1];
      if !('0' <= last <= '9') then None
      else
        var d := last as int - '0' as int;
        if |s| == 1 then Some(d)
        else match ReadDigits(s[..|s| - 1])
          case None => None
          case Some(n) => Some(10 * n + d)
  }

  /** int(s) on an optionally signed run of digits; None stands for ValueError. */
  function ReadDecimal(s: string): Option<int>
  {
    if s != [] && s[0] == '-' then
      match ReadDigits(s[1..])
      case None => None
      case Some(n) => Some(-(n as int))
    else
      match ReadDigits(s)
      case None => None
      case Some(n) => Some(n as int)
  }

  lemma {:induction false} DigitsRead(n: nat)
    ensures ReadDigits(Digits(n)) == Some(n)
    ensures Digits(n) != [] && '0' <= Digits(n)[0] <= '9'
  {
    if n >= 10 {
      DigitsRead(n / 10);
      var s := Digits(n);
      assert s[..|s| - 1] == Digits(n / 10);
    }
  }

  lemma {:induction false} ReadNegative(digits: string, n: nat)
    requires ReadDigits(digits) == Some(n)
    ensures ReadDecimal("-" + digits) == Some(-(n as int))
  {
    assert ("-" + digits)[1..] == digits;
  }

  /** int(str(n)) == n for every integer. */
  lemma {:induction false} DecimalRead(n: int)
    ensures ReadDecimal(Decimal(n)) == Some(n)
  {
    if n < 0 {
      DigitsRead(-n);
      ReadNegative(Digits(-n), -n);
    } else {
      DigitsRead(n);
    }
  }

  // ---------- Cases and substrings ----------

  /** Case folding changes letters only, and one case is that of the other. */
  lemma CaseFolds(s: string)
    ensures Upper(Lower(s)) == Upper(s) && Lower(Upper(s)) == Lower(s)
    ensures forall i | 0 <= i < |s| :: !('A' <= Lower(s)[i] <= 'Z') && !('a' <= Upper(s)[i] <= 'z')
    ensures forall i | 0 <= i < |s| :: Lower(s)[i] == s[i] || Upper(s)[i] == s[i]
    ensures Upper("error") == "ERROR" && Lower("SLOW") == "slow"
  {}

  /** A text contains a term when it is the term with something before and after it. */
  lemma ContainsMeans(text: string, term: string)
    ensures Contains(text, term) <==> exists a: string, b: string :: text == a + term + b
  {
    if Contains(text, term) {
      var i :| 0 <= i <= |text| && OccursAt(text, term, i);
      assert text == text[..i] + term + text[i + |term|..];
    }
    if a: string, b: string :| text == a + term + b {
      assert text[|a|..|a| + |term|] == term;
      assert OccursAt(text, term, |a|);
    }
  }
}
