/** Code lists and patterns of the invoice template. */
module Codes {
  import opened Text

  // --- Invoice types --------------------------------------------------------

  datatype InvoiceType = InvoiceType(title: string, requiresBuyerTrn: bool, requiresPrecedingInvoice: bool)

  function TypeSpec(code: string): Option<InvoiceType> {
    match code
    case "380" => Some(InvoiceType("Commercial Tax Invoice (B2B)", true, false))
    case "388" => Some(InvoiceType("Simplified Tax Invoice (B2C)", false, false))
    case "381" => Some(InvoiceType("Credit Note", true, true))
    case "383" => Some(InvoiceType("Debit Note", true, true))
    case _ => None
  }

  const PAYMENT_MEANS := {"10", "30", "42", "48"}
  const EMIRATES := {"Dubai", "Abu Dhabi", "Sharjah", "Ajman", "Ras Al Khaimah", "Fujairah", "Umm Al Quwain"}
  const UOM_CODES := {"PCE", "HUR", "KGM", "DAY", "MON"}
  const CURRENCY_CODES := {"AED", "USD", "EUR", "GBP", "SAR"}
  const BASE_CURRENCY := "AED"

  // --- Patterns -------------------------------------------------------------

  predicate IsAlphanumeric(c: char) {
    IsDigit(c) || 'A' <= c <= 'Z' || 'a' <= c <= 'z'
  }

  /** Fifteen digits, the first of them 1. */
  predicate TrnShape(s: string) {
    |s| == 15 && AllDigits(s) && s[0] == '1'
  }

  predicate IsValidTrn(value: string) {
    TrnShape(Trim(value))
  }

  predicate NumberFormat(s: string) {
    s != [] && forall c :: c in s ==> IsAlphanumeric(c) || c == '-' || c == '/'
  }

  /** YYYY-MM-DD, digits only; whether it is a real day is the calendar's business. */
  predicate DateShape(s: string) {
    && |s| == 10 && s[4] == '-' && s[7] == '-'
    && AllDigits(s[..4]) && AllDigits(s[5..7]) && AllDigits(s[8..])
  }

  /** HH:MM on a 24-hour clock. */
  predicate ClockShape(s: string) {
    && |s| == 5 && s[2] == ':'
    && IsDigit(s[0]) && IsDigit(s[1]) && IsDigit(s[3]) && IsDigit(s[4])
    && (s[0] in {'0', '1'} || (s[0] == '2' && s[1] <= '3'))
    && s[3] <= '5'
  }

  /** HH:MM:SS on a 24-hour clock. */
  predicate TimeShape(s: string) {
    && |s| == 8 && ClockShape(s[..5]) && s[5] == ':'
    && IsDigit(s[6]) && IsDigit(s[7]) && s[6] <= '5'
  }
}
