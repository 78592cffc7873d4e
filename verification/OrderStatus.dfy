/** Order statuses as the ledger stores them and as the reconciliation report reads them. */
module OrderStatus {
  import opened Text

  function OrUnknown(status: string): string { if status == "" then "UNKNOWN" else status }

  predicate FilledWord(raw: string) { raw == "COMPLETE" || raw == "COMPLETED" || raw == "FILLED" }
  predicate CancelledWord(raw: string) { raw == "CANCELLED" || raw == "CANCELED" }
  predicate RejectedWord(raw: string) { raw == "REJECTED" || raw == "FAILED" || raw == "FAILURE" }
  predicate OpenWord(raw: string) {
    || raw == "OPEN" || raw == "PENDING" || raw == "TRIGGER PENDING"
    || raw == "AMO REQ RECEIVED" || raw == "VALIDATION PENDING"
  }
  predicate SubmittedWord(raw: string) { raw == "UNKNOWN" || raw == "SUBMITTED" }

  /** A part of the order is filled, and the broker's word is not one of the two exempt ones. */
  predicate ShownPartial(raw: string, quantity: real, filled: real) {
    0.0 < filled < quantity && raw != "CANCELLED" && raw != "REJECTED"
  }

  /** The word table; the ledger and the reconciliation report hold a copy each. */
  function Canonical(raw: string): string {
    if FilledWord(raw) then "FILLED"
    else if CancelledWord(raw) then "CANCELLED"
    else if RejectedWord(raw) then "REJECTED"
    else if OpenWord(raw) then "OPEN"
    else if SubmittedWord(raw) then "SUBMITTED"
    else raw
  }

  /** What the ledger stores. */
  function NormalizeStatus(status: string, quantity: real, filled: real): string {
    var raw := Upper(Strip(OrUnknown(status)));
    if ShownPartial(raw, quantity, filled) then "PARTIAL" else Canonical(raw)
  }

  /** What the reconciliation report compares. */
  function NormalStatus(status: string): string {
    Canonical(Upper(OrUnknown(status)))
  }

  lemma UpperWords()
    ensures Upper("FILLED") == "FILLED" && Upper("CANCELLED") == "CANCELLED" && Upper("REJECTED") == "REJECTED"
    ensures Upper("OPEN") == "OPEN" && Upper("SUBMITTED") == "SUBMITTED" && Upper("PARTIAL") == "PARTIAL"
  {}

  lemma CanonicalWords()
    ensures Canonical("FILLED") == "FILLED" && Canonical("CANCELLED") == "CANCELLED"
    ensures Canonical("REJECTED") == "REJECTED" && Canonical("OPEN") == "OPEN"
    ensures Canonical("SUBMITTED") == "SUBMITTED" && Canonical("PARTIAL") == "PARTIAL"
  {}

  /** Reading a stored word again does not change it. */
  lemma CanonicalStable(raw: string)
    requires raw != "" && Upper(raw) == raw
    ensures NormalStatus(Canonical(raw)) == Canonical(raw)
  {
    hide Upper;
    UpperWords();
    CanonicalWords();
    hide Canonical;
    assert Canonical(raw) == raw || Canonical(raw) == "FILLED" || Canonical(raw) == "CANCELLED"
           || Canonical(raw) == "REJECTED" || Canonical(raw) == "OPEN" || Canonical(raw) == "SUBMITTED"
    by { CanonicalRange(raw); }
  }

  lemma CanonicalRange(raw: string)
    ensures var w := Canonical(raw);
            w == raw || w == "FILLED" || w == "CANCELLED" || w == "REJECTED" || w == "OPEN" || w == "SUBMITTED"
  {}

  lemma CanonicalKeepsPadding(raw: string)
    ensures Unpadded(Canonical(raw)) <==> Unpadded(raw)
    ensures !Unpadded(raw) ==> Canonical(raw) == raw
  {}

  /** Nothing the ledger stores reads as a padded word. */
  lemma StoredIsUnpadded(status: string, quantity: real, filled: real)
    ensures Unpadded(NormalStatus(NormalizeStatus(status, quantity, filled)))
  {
    hide Upper, Canonical;
    var word := Strip(OrUnknown(status));
    UpperKeepsPadding(word);
    CanonicalKeepsPadding(Upper(word));
    var stored := OrUnknown(NormalizeStatus(status, quantity, filled));
    UpperKeepsPadding(stored);
    CanonicalKeepsPadding(Upper(stored));
  }

  lemma PaddedIsReported(status: string)
    requires !Unpadded(status)
    ensures !Unpadded(NormalStatus(status))
  {
    hide Canonical;
    UpperKeepsPadding(status);
    CanonicalKeepsPadding(Upper(status));
  }

  /** The ledger's reading and the report's agree on the broker's word. */
  predicate ReadAlike(status: string, quantity: real, filled: real) {
    && Strip(status) == status
    && (!ShownPartial(Upper(OrUnknown(status)), quantity, filled) || NormalStatus(status) == "PARTIAL")
  }

  /** The two readings agree exactly on words without padding, unless the ledger shows a partial fill under a word
      that does not itself read PARTIAL. */
  lemma NormalisersAgree(status: string, quantity: real, filled: real)
    ensures NormalStatus(NormalizeStatus(status, quantity, filled)) == NormalStatus(status)
            <==> ReadAlike(status, quantity, filled)
  {
    hide Upper, Canonical;
    if Strip(status) == status {
      var raw := Upper(OrUnknown(status));
      assert Strip("UNKNOWN") == "UNKNOWN";
      UpperIdempotent(OrUnknown(status));
      UpperWords();
      CanonicalWords();
      CanonicalStable(raw);
    } else {
      StoredIsUnpadded(status, quantity, filled);
      PaddedIsReported(status);
    }
  }

  /** The word table in full. */
  lemma WordsAre()
    ensures Canonical("COMPLETE") == Canonical("COMPLETED") == Canonical("FILLED") == "FILLED"
    ensures Canonical("CANCELLED") == Canonical("CANCELED") == "CANCELLED"
    ensures Canonical("REJECTED") == Canonical("FAILED") == Canonical("FAILURE") == "REJECTED"
    ensures Canonical("OPEN") == Canonical("PENDING") == Canonical("TRIGGER PENDING") == "OPEN"
    ensures Canonical("AMO REQ RECEIVED") == Canonical("VALIDATION PENDING") == "OPEN"
    ensures Canonical("SUBMITTED") == Canonical("UNKNOWN") == "SUBMITTED"
  {
    FinishedWords();
    UnfinishedWords();
    hide Canonical;
  }

  lemma FinishedWords()
    ensures Canonical("COMPLETE") == Canonical("COMPLETED") == Canonical("FILLED") == "FILLED"
    ensures Canonical("CANCELLED") == Canonical("CANCELED") == "CANCELLED"
    ensures Canonical("REJECTED") == Canonical("FAILED") == Canonical("FAILURE") == "REJECTED"
  {}

  lemma UnfinishedWords()
    ensures Canonical("OPEN") == Canonical("PENDING") == Canonical("TRIGGER PENDING") == "OPEN"
    ensures Canonical("AMO REQ RECEIVED") == Canonical("VALIDATION PENDING") == "OPEN"
    ensures Canonical("SUBMITTED") == Canonical("UNKNOWN") == "SUBMITTED"
  {}

  lemma OtherWordsStand(raw: string)
    ensures Canonical(raw) == raw
            || raw in {"COMPLETE", "COMPLETED", "CANCELED", "FAILED", "FAILURE", "PENDING", "TRIGGER PENDING",
                       "AMO REQ RECEIVED", "VALIDATION PENDING", "UNKNOWN"}
  {}

  /** The ledger shows a partial fill exactly when some but not all is filled and the broker does not say CANCELLED or
      REJECTED, or when the broker's own word is PARTIAL. */
  lemma PartialExactlyWhen(status: string, quantity: real, filled: real)
    ensures var word := Upper(Strip(if status == "" then "UNKNOWN" else status));
            NormalizeStatus(status, quantity, filled) == "PARTIAL"
            <==> (0.0 < filled && filled < quantity && word != "CANCELLED" && word != "REJECTED") || word == "PARTIAL"
  {
    hide Upper, Strip;
    var word := Upper(Strip(if status == "" then "UNKNOWN" else status));
    OtherWordsStand(word);
    WordsAre();
    hide Canonical;
  }

  /** Otherwise it shows what the word table makes of the broker's word. */
  lemma WholeFillsReadTheWord(status: string, quantity: real, filled: real)
    requires filled <= 0.0 || quantity <= filled
    ensures NormalizeStatus(status, quantity, filled)
            == Canonical(Upper(Strip(if status == "" then "UNKNOWN" else status)))
  {
    hide Upper, Strip, Canonical;
  }
}
