/**
 * Image names of face-up cards: the rank's raw value written in decimal,
 * followed by the suit's one-letter code ("10S" is the ten of spades).
 */
module ImageKeys {
  import opened Wrappers
  import opened Cards

  /** The image shown for a card that is face down. */
  const CardBack: string := "green_back"

  predicate IsDigit(c: char) {
    '0' <= c <= '9'
  }

  predicate AllDigits(s: string) {
    forall i :: 0 <= i < |s| ==> IsDigit(s[i])
  }

  function DigitChar(d: nat): (c: char)
    requires d < 10
    ensures IsDigit(c) && c as int - '0' as int == d
  {
    ('0' as int + d) as char
  }

  /** The quotient of n by ten, by repeated subtraction (keeps division out of the solver's way). */
  function Tens(n: nat): (t: nat)
    ensures 10 * t <= n < 10 * t + 10
  {
    if n < 10 then 0 else 1 + Tens(n - 10)
  }

  /** String interpolation of a natural number: its decimal digits, no leading zero. */
  function Decimal(n: nat): (s: string)
    ensures 1 <= |s| && AllDigits(s)
    ensures n < 10 <==> |s| == 1
    ensures s[0] == '0' ==> n == 0
  {
    if n < 10 then [DigitChar(n)] else Decimal(Tens(n)) + [DigitChar(n - 10 * Tens(n))]
  }

  /** The value of a string of decimal digits (0 when it is empty). */
  function DigitsValue(s: string): nat
    requires AllDigits(s)
  {
    if |s| == 0 then 0
    else DigitsValue(s[..|s| - 1]) * 10 + (s[|s| - 1] as int - '0' as int)
  }

  /** Reading back the decimal spelling of n gives n. */
  lemma {:induction false} DecimalRoundTrip(n: nat)
    ensures DigitsValue(Decimal(n)) == n
  {
    if n >= 10 {
      var s := Decimal(n);
      assert s[..|s| - 1] == Decimal(Tens(n));
      DecimalRoundTrip(Tens(n));
    }
  }

  /** The interpolated raw value of a rank, written out for each of the thirteen ranks. */
  function RankText(r: Rank): string {
    match r
    case Ace => "1"
    case Two => "2"
    case Three => "3"
    case Four => "4"
    case Five => "5"
    case Six => "6"
    case Seven => "7"
    case Eight => "8"
    case Nine => "9"
    case Ten => "10"
    case Jack => "11"
    case Queen => "12"
    case King => "13"
  }

  /** The table above is the decimal spelling of the rank's raw value. */
  lemma RankTextIsDecimal(r: Rank)
    ensures RankText(r) == Decimal(RankValue(r))
  {
    var n := RankValue(r);
    if n >= 10 {
      assert Tens(n) == 1;
    }
  }

  /** get*CardImage: the image name of a face-up card. */
  function ImageKey(c: Card): (key: string)
    ensures 2 <= |key| <= 3
    ensures AllDigits(key[..|key| - 1]) && key[0] != '0'
    ensures key[|key| - 1] == SuitCode(c.suit)
  {
    RankText(c.rank) + [SuitCode(c.suit)]
  }

  /** The card an image name stands for, if it names one. */
  function ParseImageKey(key: string): Option<Card> {
    if |key| < 2 then None
    else
      var digits := key[..|key| - 1];
      var suit := SuitFromCode(key[|key| - 1]);
      if !AllDigits(digits) || suit.None? then None
      else
        var rank := RankFromValue(DigitsValue(digits));
        if rank.None? then None else Some(Card(rank.value, suit.value))
  }

  /** Every face-up image name decodes back to its card. */
  lemma ImageKeyRoundTrip(c: Card)
    ensures ParseImageKey(ImageKey(c)) == Some(c)
  {
    var key := ImageKey(c);
    RankTextIsDecimal(c.rank);
    assert key[..|key| - 1] == Decimal(RankValue(c.rank));
    DecimalRoundTrip(RankValue(c.rank));
    RawValuesRoundTrip(c.rank, c.suit);
  }

  /** Different cards get different images, and no card shows the card back. */
  lemma ImageKeysDistinguishCards(a: Card, b: Card)
    ensures ImageKey(a) == ImageKey(b) <==> a == b
    ensures ImageKey(a) != CardBack
  {
    ImageKeyRoundTrip(a);
    ImageKeyRoundTrip(b);
  }
}
