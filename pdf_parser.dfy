// The keyword classifier the PDF parser uses to label a construction document.
// Text extraction (PyPDF2, OCR) is not part of this model; the classifier
// receives the extracted text.

module PdfParser {
  import opened Text

  /** The eight labels; the classifier never answers "none". */
  datatype DocumentType =
    | BidInvitation | Estimate | ChangeOrder | Invoice | Contract | Drawing | Specification | Unknown

  function Label(d: DocumentType): string {
    match d
    case BidInvitation => "bid_invitation"
    case Estimate => "estimate"
    case ChangeOrder => "change_order"
    case Invoice => "invoice"
    case Contract => "contract"
    case Drawing => "drawing"
    case Specification => "specification"
    case Unknown => "unknown"
  }

  /** The keyword test of each rule, on lower-cased text; `Unknown` is the catch-all. */
  predicate RuleMatches(d: DocumentType, t: string) {
    match d
    case BidInvitation => Contains(t, "bid") && (Contains(t, "invitation") || Contains(t, "proposal"))
    case Estimate => Contains(t, "estimate") || Contains(t, "quote")
    case ChangeOrder => Contains(t, "change order")
    case Invoice => Contains(t, "invoice") || Contains(t, "bill")
    case Contract => Contains(t, "contract") || Contains(t, "agreement")
    case Drawing => Contains(t, "drawing") || Contains(t, "blueprint") || Contains(t, "plan")
    case Specification => Contains(t, "specification") || Contains(t, "spec")
    case Unknown => true
  }

  /** The order in which the rules are tried. */
  const RULE_ORDER: seq<DocumentType> :=
    [BidInvitation, Estimate, ChangeOrder, Invoice, Contract, Drawing, Specification, Unknown]

  /** `_identify_document_type`: the first rule, in order, whose keywords occur in the lower-cased text. */
  function IdentifyDocumentType(text: string): (r: DocumentType)
    ensures RuleMatches(r, Lower(text))
    ensures forall i :: 0 <= i < |RULE_ORDER| && RULE_ORDER[i] == r ==>
      forall j :: 0 <= j < i ==> !RuleMatches(RULE_ORDER[j], Lower(text))
  {
    var t := Lower(text);
    if Contains(t, "bid") && (Contains(t, "invitation") || Contains(t, "proposal")) then BidInvitation
    else if Contains(t, "estimate") || Contains(t, "quote") then Estimate
    else if Contains(t, "change order") then ChangeOrder
    else if Contains(t, "invoice") || Contains(t, "bill") then Invoice
    else if Contains(t, "contract") || Contains(t, "agreement") then Contract
    else if Contains(t, "drawing") || Contains(t, "blueprint") || Contains(t, "plan") then Drawing
    else if Contains(t, "specification") || Contains(t, "spec") then Specification
    else Unknown
  }

  /** Upper- and lower-case text get the same label. */
  lemma ClassifierIgnoresCase(text: string)
    ensures IdentifyDocumentType(Lower(text)) == IdentifyDocumentType(text)
  {
    LowerIdempotent(text);
  }

  /** `bid` alone is not enough: it needs `invitation` or `proposal` beside it. */
  lemma BidNeedsPartner(text: string)
    ensures IdentifyDocumentType(text) == BidInvitation <==>
      Contains(Lower(text), "bid")
      && (Contains(Lower(text), "invitation") || Contains(Lower(text), "proposal"))
  {
  }

  /** Text naming both an estimate and a change order is an estimate, unless it is a bid invitation. */
  lemma EstimateBeforeChangeOrder(text: string)
    requires Contains(Lower(text), "estimate") && Contains(Lower(text), "change order")
    requires !RuleMatches(BidInvitation, Lower(text))
    ensures IdentifyDocumentType(text) == Estimate
  {
  }

  /** A keyword is absent when one of its characters is. */
  lemma {:induction false} MissingCharacter(s: string, pat: string, j: nat)
    requires j < |pat| && pat[j] !in s
    ensures !Contains(s, pat)
  {
    forall i | 0 <= i <= |s| - |pat| ensures !OccursAt(s, pat, i) {
      assert s[i..i + |pat|][j] == s[i + j];
    }
  }

  /** Substring matching: "planned" contains "plan" and is taken for a drawing. */
  lemma PlannedIsDrawing()
    ensures IdentifyDocumentType("planned") == Drawing
  {
    var t := "planned";
    LowerOfNoCapitals(t);
    MissingCharacter(t, "bid", 0);
    MissingCharacter(t, "estimate", 1);
    MissingCharacter(t, "quote", 0);
    MissingCharacter(t, "change order", 0);
    MissingCharacter(t, "invoice", 0);
    MissingCharacter(t, "bill", 0);
    MissingCharacter(t, "contract", 0);
    MissingCharacter(t, "agreement", 1);
    assert OccursAt(t, "plan", 0);
  }

  /** Substring matching: "inspection" contains "spec" and is taken for a specification. */
  lemma InspectionIsSpecification()
    ensures IdentifyDocumentType("inspection") == Specification
  {
    var t := "inspection";
    LowerOfNoCapitals(t);
    InspectionFailsFirstRules();
    InspectionFailsDrawingRules();
    assert OccursAt(t, "spec", 2);
  }

  lemma InspectionFailsFirstRules()
    ensures !RuleMatches(BidInvitation, "inspection") && !RuleMatches(Estimate, "inspection")
    ensures !RuleMatches(ChangeOrder, "inspection") && !RuleMatches(Invoice, "inspection")
  {
    var t := "inspection";
    MissingCharacter(t, "bid", 0);
    MissingCharacter(t, "estimate", 4);
    MissingCharacter(t, "quote", 0);
    MissingCharacter(t, "change order", 1);
    MissingCharacter(t, "invoice", 2);
    MissingCharacter(t, "bill", 0);
  }

  lemma InspectionFailsDrawingRules()
    ensures !RuleMatches(Contract, "inspection") && !RuleMatches(Drawing, "inspection")
  {
    var t := "inspection";
    MissingCharacter(t, "contract", 5);
    MissingCharacter(t, "agreement", 0);
    MissingCharacter(t, "drawing", 0);
    MissingCharacter(t, "blueprint", 0);
    MissingCharacter(t, "plan", 1);
  }

  /** Empty text has no keyword and is `unknown`. */
  lemma EmptyIsUnknown()
    ensures IdentifyDocumentType("") == Unknown
  {
    assert Lower("") == "";
  }
}
