/** Decimal numerals and splitting text at a separator. */
module DecimalText {
  import opened Values

  function Digit(d: nat): char
    requires d < 10
  {
    '0' + d as char
  }

  /** The decimal digits of a number. */
  function Digits(n: nat): string {
    (if n < 10 then "" else Digits(n / 10)) + [Digit(n % 10)]
  }

  predicate IsDigit(c: char) {
    '0' <= c <= '9'
  }

  /** `int(text)` for a text of digits; other texts are refused. */
  function ParseDecimal(text: string): Option<nat> {
    if text == "" || !IsDigit(text[|text| - 1]) then None
    else
      var last := (text[|text| - 1] - '0') as nat;
      if |text| == 1 then Some(last)
      else
        var front := ParseDecimal(text[..|text| - 1]);
        if front.None? then None else Some(10 * front.value + last)
  }

  /** Reading back a printed number. */
  lemma {:induction false} ParseOfDigits(n: nat)
    ensures ParseDecimal(Digits(n)) == Some(n)
  {
    if n >= 10 {
      ParseOfDigits(n / 10);
      assert Digits(n)[..|Digits(n)| - 1] == Digits(n / 10);
    }
  }

  lemma {:induction false} DigitsAreDigits(n: nat)
    ensures Digits(n) != "" && forall c :: c in Digits(n) ==> IsDigit(c)
  {
    if n >= 10 { DigitsAreDigits(n / 10); }
  }

  /** The text before the first separator: `text.split(c, 1)[0]`. */
  function FirstPart(text: string, c: char): string {
    if text == "" || text[0] == c then "" else [text[0]] + FirstPart(text[1..], c)
  }

  /** The text after the last separator: `text.rsplit(c, 1)[-1]`. */
  function LastPart(text: string, c: char): string {
    if text == "" || text[|text| - 1] == c then "" else LastPart(text[..|text| - 1], c) + [text[|text| - 1]]
  }

  lemma {:induction false} FirstPartOf(head: string, tail: string, c: char)
    requires c !in head && (tail == "" || tail[0] == c)
    ensures FirstPart(head + tail, c) == head
  {
    if head == "" {
      assert head + tail == tail;
    } else {
      assert (head + tail)[1..] == head[1..] + tail;
      FirstPartOf(head[1..], tail, c);
    }
  }

  lemma {:induction false} LastPartOf(head: string, tail: string, c: char)
    requires c !in tail && (head == "" || head[|head| - 1] == c)
    ensures LastPart(head + tail, c) == tail
  {
    if tail == "" {
      assert head + tail == head;
    } else {
      assert (head + tail)[..|head + tail| - 1] == head + tail[..|tail| - 1];
      LastPartOf(head, tail[..|tail| - 1], c);
    }
  }
}
