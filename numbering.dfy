/**
 * The document numbers given to new invoices and delivery notes
 * (src/components/Invoices.tsx and src/components/DeliveryNotes.tsx):
 * `${PREFIX}-${year}-${String(n).padStart(3, "0")}`, where `n` is one more
 * than the number of records already in the list.
 */
module Numbering {
  import opened Text
  import opened Base

  /** The zero-padded sequence part: at least three digits. */
  function SequencePart(n: nat): string
  {
    PadStart(DecimalString(n), 3, '0')
  }

  /** `PREFIX-year-NNN`. */
  function DocumentNumber(prefix: string, year: nat, n: nat): string
  {
    prefix + "-" + DecimalString(year) + "-" + SequencePart(n)
  }

  /** Reads the sequence number back out of a document number with the given prefix, if it has that shape. */
  function SequenceOf(prefix: string, number: string): Option<nat>
  {
    var parts := Split(number, '-');
    if |parts| == 3 && parts[0] == prefix && |parts[1]| >= 1 && AllDigits(parts[1])
       && |parts[2]| >= 3 && AllDigits(parts[2])
    then Some(ParseDigits(parts[2]))
    else None
  }

  lemma NoDashInDigits(s: string)
    requires AllDigits(s)
    ensures '-' !in s
  {
  }

  /** A document number splits at its dashes into the prefix, the year's numeral and the sequence part. */
  lemma SplitDocumentNumber(prefix: string, year: nat, n: nat)
    requires '-' !in prefix
    ensures Split(DocumentNumber(prefix, year, n), '-') == [prefix, DecimalString(year), SequencePart(n)]
  {
    var y, p := DecimalString(year), SequencePart(n);
    ZeroPaddedNumeral(n, 3);
    NoDashInDigits(y);
    NoDashInDigits(p);
    SplitThree(prefix, y, p, '-');
  }

  /**
   * A document number is three dash-separated fields: the prefix, the
   * year's numeral and an all-digit field of at least three characters,
   * and reading it back yields the sequence number it was built from.
   */
  lemma SequenceOfNumber(prefix: string, year: nat, n: nat)
    requires '-' !in prefix
    ensures SequenceOf(prefix, DocumentNumber(prefix, year, n)) == Some(n)
  {
    SplitDocumentNumber(prefix, year, n);
    ZeroPaddedNumeral(n, 3);
  }

  /** Different sequence numbers give different document numbers, whatever the years. */
  lemma DocumentNumberInjective(prefix: string, y1: nat, y2: nat, m: nat, n: nat)
    requires '-' !in prefix
    requires DocumentNumber(prefix, y1, m) == DocumentNumber(prefix, y2, n)
    ensures m == n
  {
    SequenceOfNumber(prefix, y1, m);
    SequenceOfNumber(prefix, y2, n);
  }

  /** In 2024 the first nine documents are numbered `PREFIX-2024-001` to `PREFIX-2024-009`. */
  lemma NumberIn2024(prefix: string, k: nat)
    requires 1 <= k < 10
    ensures DocumentNumber(prefix, 2024, k) == prefix + "-2024-00" + [DigitChar(k)]
  {
    assert DecimalString(2024) == "2024" by {
      assert DecimalString(2) == "2";
      assert DecimalString(20) == "20";
      assert DecimalString(202) == "202";
    }
    assert DecimalString(k) == [DigitChar(k)];
    assert Repeat('0', 2) == "00";
  }
}
