/**
 * Sharing a document over WhatsApp (`shareViaWhatsApp` in
 * src/lib/pdfUtils.ts): the phone number is stripped of everything but its
 * digits and placed in a wa.me link with the URI-encoded message.
 * `encodeURIComponent` is a parameter of the model.
 */
module WhatsApp {
  import opened Base
  import opened Text

  /** `phoneNumber.replace(/\D/g, "")`: the digits of the number, in order. */
  function FormatPhone(phone: string): (r: string)
    ensures AllDigits(r) && |r| <= |phone|
  {
    var r := Filter((c: char) => IsDigit(c), phone);
    assert forall i :: 0 <= i < |r| ==> r[i] in r;
    r
  }

  /**
   * The formatted number is exactly the input's digits: it is a subsequence
   * of the input and every digit occurs in it as often as in the input,
   * every other character never.
   */
  lemma FormatPhoneIsTheDigits(phone: string, c: char)
    ensures IsSubsequence(FormatPhone(phone), phone)
    ensures multiset(FormatPhone(phone))[c] == if IsDigit(c) then multiset(phone)[c] else 0
  {
    FilterIsSubsequence((c: char) => IsDigit(c), phone);
    DigitCount(phone, c);
  }

  lemma {:induction false} DigitCount(phone: string, c: char)
    ensures multiset(FormatPhone(phone))[c] == if IsDigit(c) then multiset(phone)[c] else 0
  {
    if phone != [] {
      DigitCount(phone[1..], c);
      assert phone == [phone[0]] + phone[1..];
      assert multiset(phone) == multiset([phone[0]]) + multiset(phone[1..]);
      if IsDigit(phone[0]) {
        assert FormatPhone(phone) == [phone[0]] + FormatPhone(phone[1..]);
        assert multiset(FormatPhone(phone)) == multiset([phone[0]]) + multiset(FormatPhone(phone[1..]));
      }
    }
  }

  /** A number that is already digits only is left as it is, so formatting twice is formatting once. */
  lemma FormatPhoneIdempotent(phone: string)
    ensures AllDigits(phone) ==> FormatPhone(phone) == phone
    ensures FormatPhone(FormatPhone(phone)) == FormatPhone(phone)
  {
    if AllDigits(phone) {
      forall c | c in phone ensures IsDigit(c) {
        var i :| 0 <= i < |phone| && phone[i] == c;
      }
      FilterAll((c: char) => IsDigit(c), phone);
    }
    var d := FormatPhone(phone);
    forall c | c in d ensures IsDigit(c) {
      var i :| 0 <= i < |d| && d[i] == c;
    }
    FilterAll((c: char) => IsDigit(c), d);
  }

  /** Formatting works piece by piece: the digits of a concatenation are the concatenated digits. */
  lemma FormatPhoneAppend(a: string, b: string)
    ensures FormatPhone(a + b) == FormatPhone(a) + FormatPhone(b)
  {
    FilterAppend((c: char) => IsDigit(c), a, b);
  }

  /** A separator followed by digits formats to the digits. */
  lemma FormatGroup(sep: char, digits: string)
    requires !IsDigit(sep) && AllDigits(digits)
    ensures FormatPhone([sep] + digits) == digits
  {
    FormatPhoneAppend([sep], digits);
    FormatPhoneIdempotent(digits);
  }

  /** An international number written with a plus sign and blanks becomes the bare digits. */
  lemma FormatTanzanianNumber()
    ensures FormatPhone("+255 712 345 678") == "255712345678"
  {
    var a, b, c, d := "255", "712", "345", "678";
    assert "+255 712 345 678" == ['+'] + a + ([' '] + b + ([' '] + c + ([' '] + d)));
    FormatGroup(' ', d);
    FormatGroup(' ', c);
    FormatGroup(' ', b);
    FormatGroup('+', a);
    FormatPhoneAppend([' '] + c, [' '] + d);
    FormatPhoneAppend([' '] + b, [' '] + c + ([' '] + d));
    FormatPhoneAppend(['+'] + a, [' '] + b + ([' '] + c + ([' '] + d)));
    assert a + (b + (c + d)) == "255712345678";
  }

  const WaMe: string := "https://wa.me/"

  /** The link `shareViaWhatsApp` opens, given `encodeURIComponent`. */
  function WhatsAppUrl(phone: string, message: string, encode: string -> string): string
  {
    WaMe + FormatPhone(phone) + "?text=" + encode(message)
  }

  /**
   * The link can be read back: it starts with the wa.me address, the text up
   * to the first `?` is the formatted number, and what follows is the
   * `text` parameter holding the encoded message.
   */
  lemma WhatsAppUrlParts(phone: string, message: string, encode: string -> string)
    ensures var url := WhatsAppUrl(phone, message, encode);
      && url[..|WaMe|] == WaMe
      && var parts := Split(url[|WaMe|..], '?');
      && parts[0] == FormatPhone(phone)
      && Join(parts[1..], "?") == "text=" + encode(message)
  {
    var url := WhatsAppUrl(phone, message, encode);
    var d := FormatPhone(phone);
    var t := "text=" + encode(message);
    assert url[|WaMe|..] == d + ['?'] + t;
    assert !IsDigit('?');
    SplitPiece(d, '?', t);
    SplitThenJoin(t, '?');
  }
}
