/**
 * The ACH mandate text (paymentdatacollection/ach/USBankAccountTextBuilder.kt):
 * a localized template whose `<terms>`…`</terms>` markers become an HTML
 * anchor to the authorization terms. The two string resources are
 * parameters: `saveMandate` is the save-for-future-use template already
 * formatted with its merchant-name argument, `continueMandate` the plain one.
 */
module USBankAccountTextBuilder {
  import opened Strings

  const OPEN_TERMS := "<terms>"
  const CLOSE_TERMS := "</terms>"
  const CLOSE_ANCHOR := "</a>"
  const LINK_TERMS_URL := "https://link.com/terms/ach-authorization"
  const STRIPE_TERMS_URL := "https://stripe.com/ach-payments/authorization"

  /** `getTermsLink`: Link's terms for instant debits, Stripe's otherwise. */
  function TermsLink(isInstantDebits: bool): (r: string)
    ensures r == LINK_TERMS_URL <==> isInstantDebits
    ensures r == STRIPE_TERMS_URL <==> !isInstantDebits
  {
    if isInstantDebits then LINK_TERMS_URL else STRIPE_TERMS_URL
  }

  /** Neither terms link contains `<`, so neither can complete a marker. */
  lemma TermsLinkIsPlain(isInstantDebits: bool)
    ensures '<' !in TermsLink(isInstantDebits)
  {
    assert '<' !in LINK_TERMS_URL && '<' !in STRIPE_TERMS_URL;
  }

  /** The replacement for `<terms>`: `<a href="LINK">`. */
  function OpenAnchor(link: string): (r: string)
    ensures |r| == |link| + 11 && r[..9] == "<a href=\"" && r[9..9 + |link|] == link && r[9 + |link|..] == "\">"
    // a link without `<` gives an anchor whose only `<` opens it
    ensures '<' !in link ==> forall k :: 0 < k < |r| ==> r[k] != '<'
  {
    var r := "<a href=\"" + link + "\">";
    assert forall k :: 9 <= k < 9 + |link| ==> r[k] == link[k - 9];
    r
  }

  /** The resource chosen: the save mandate when the account is kept for later or this is a setup flow. */
  function MandateTemplate(saveMandate: string -> string, continueMandate: string,
                           merchantName: string, isSaveForFutureUseSelected: bool, isSetupFlow: bool): (r: string)
    ensures isSaveForFutureUseSelected || isSetupFlow ==> r == saveMandate(merchantName)
    ensures !isSaveForFutureUseSelected && !isSetupFlow ==> r == continueMandate
  {
    if isSaveForFutureUseSelected || isSetupFlow then saveMandate(merchantName) else continueMandate
  }

  /** `getContinueMandateText`. */
  function ContinueMandateText(saveMandate: string -> string, continueMandate: string,
                               merchantName: string, isSaveForFutureUseSelected: bool,
                               isInstantDebits: bool, isSetupFlow: bool): (r: string)
    ensures Absent(MandateTemplate(saveMandate, continueMandate, merchantName, isSaveForFutureUseSelected, isSetupFlow), OPEN_TERMS)
         && Absent(MandateTemplate(saveMandate, continueMandate, merchantName, isSaveForFutureUseSelected, isSetupFlow), CLOSE_TERMS)
         ==> r == MandateTemplate(saveMandate, continueMandate, merchantName, isSaveForFutureUseSelected, isSetupFlow)
  {
    var text := MandateTemplate(saveMandate, continueMandate, merchantName, isSaveForFutureUseSelected, isSetupFlow);
    var anchor := OpenAnchor(TermsLink(isInstantDebits));
    MarkerFreeUnchanged(text, anchor);
    ReplaceAll(ReplaceAll(text, OPEN_TERMS, anchor), CLOSE_TERMS, CLOSE_ANCHOR)
  }

  /** A text holding neither marker goes through both replacements unchanged. */
  lemma MarkerFreeUnchanged(text: string, anchor: string)
    ensures Absent(text, OPEN_TERMS) && Absent(text, CLOSE_TERMS) ==>
      ReplaceAll(ReplaceAll(text, OPEN_TERMS, anchor), CLOSE_TERMS, CLOSE_ANCHOR) == text
  {
    if Absent(text, OPEN_TERMS) && Absent(text, CLOSE_TERMS) {
      ReplaceAllAbsent(text, OPEN_TERMS, anchor);
      ReplaceAllAbsent(text, CLOSE_TERMS, CLOSE_ANCHOR);
    }
  }

  /** The templates' structure: plain text and the two markers. */
  datatype Piece = Text(t: string) | OpenTerms | CloseTerms

  /** Plain text that cannot take part in a marker: it holds no `<`. */
  predicate Plain(pieces: seq<Piece>) {
    forall k :: 0 <= k < |pieces| ==> pieces[k].Text? ==> '<' !in pieces[k].t
  }

  /** The string a sequence of pieces spells, with the markers written as `open` and `close`. */
  function Render(pieces: seq<Piece>, open: string, close: string): string
    decreases |pieces|
  {
    if pieces == [] then ""
    else
      (match pieces[0]
       case Text(t) => t
       case OpenTerms => open
       case CloseTerms => close)
      + Render(pieces[1..], open, close)
  }

  /** First pass: every `<terms>` becomes `anchor`, and `</terms>` is left in place. */
  lemma {:induction false} ReplaceOpenMarkers(pieces: seq<Piece>, anchor: string)
    requires Plain(pieces)
    ensures ReplaceAll(Render(pieces, OPEN_TERMS, CLOSE_TERMS), OPEN_TERMS, anchor)
         == Render(pieces, anchor, CLOSE_TERMS)
    decreases |pieces|
  {
    if pieces != [] {
      var rest := Render(pieces[1..], OPEN_TERMS, CLOSE_TERMS);
      assert Plain(pieces[1..]) by {
        forall k | 0 <= k < |pieces[1..]| ensures pieces[1..][k].Text? ==> '<' !in pieces[1..][k].t {
          assert pieces[1..][k] == pieces[k + 1];
        }
      }
      ReplaceOpenMarkers(pieces[1..], anchor);
      match pieces[0]
      case Text(t) =>
        assert '<' !in t;
        NoOccurrenceInside(t, rest, OPEN_TERMS);
        ReplaceAllKeepsPrefix(t, rest, OPEN_TERMS, anchor);
      case OpenTerms =>
        ReplaceAllAtFront(rest, OPEN_TERMS, anchor);
      case CloseTerms =>
        NoOccurrenceInside(CLOSE_TERMS, rest, OPEN_TERMS);
        ReplaceAllKeepsPrefix(CLOSE_TERMS, rest, OPEN_TERMS, anchor);
    }
  }

  /** Second pass: every `</terms>` becomes `</a>`; the anchor, if `link` holds no `<`, is left in place. */
  lemma {:induction false} ReplaceCloseMarkers(pieces: seq<Piece>, link: string)
    requires Plain(pieces) && '<' !in link
    ensures ReplaceAll(Render(pieces, OpenAnchor(link), CLOSE_TERMS), CLOSE_TERMS, CLOSE_ANCHOR)
         == Render(pieces, OpenAnchor(link), CLOSE_ANCHOR)
    decreases |pieces|
  {
    if pieces != [] {
      var anchor := OpenAnchor(link);
      var rest := Render(pieces[1..], anchor, CLOSE_TERMS);
      assert Plain(pieces[1..]) by {
        forall k | 0 <= k < |pieces[1..]| ensures pieces[1..][k].Text? ==> '<' !in pieces[1..][k].t {
          assert pieces[1..][k] == pieces[k + 1];
        }
      }
      ReplaceCloseMarkers(pieces[1..], link);
      match pieces[0]
      case Text(t) =>
        assert '<' !in t;
        NoOccurrenceInside(t, rest, CLOSE_TERMS);
        ReplaceAllKeepsPrefix(t, rest, CLOSE_TERMS, CLOSE_ANCHOR);
      case OpenTerms =>
        NoOccurrenceInside(anchor, rest, CLOSE_TERMS);
        ReplaceAllKeepsPrefix(anchor, rest, CLOSE_TERMS, CLOSE_ANCHOR);
      case CloseTerms =>
        ReplaceAllAtFront(rest, CLOSE_TERMS, CLOSE_ANCHOR);
    }
  }

  /**
   * For a template made of plain text and markers, the mandate text is the
   * same template with every `<terms>` written as `<a href="LINK">` and every
   * `</terms>` as `</a>`, LINK being the terms link for the flow.
   */
  lemma MarkersBecomeAnchors(saveMandate: string -> string, continueMandate: string,
                             merchantName: string, isSaveForFutureUseSelected: bool,
                             isInstantDebits: bool, isSetupFlow: bool, pieces: seq<Piece>)
    requires Plain(pieces)
    requires MandateTemplate(saveMandate, continueMandate, merchantName, isSaveForFutureUseSelected, isSetupFlow)
          == Render(pieces, OPEN_TERMS, CLOSE_TERMS)
    ensures ContinueMandateText(saveMandate, continueMandate, merchantName,
                                isSaveForFutureUseSelected, isInstantDebits, isSetupFlow)
         == Render(pieces, OpenAnchor(TermsLink(isInstantDebits)), CLOSE_ANCHOR)
  {
    var link := TermsLink(isInstantDebits);
    var text := MandateTemplate(saveMandate, continueMandate, merchantName, isSaveForFutureUseSelected, isSetupFlow);
    TermsLinkIsPlain(isInstantDebits);
    ReplaceOpenMarkers(pieces, OpenAnchor(link));
    ReplaceCloseMarkers(pieces, link);
    assert ContinueMandateText(saveMandate, continueMandate, merchantName, isSaveForFutureUseSelected, isInstantDebits, isSetupFlow)
        == ReplaceAll(ReplaceAll(text, OPEN_TERMS, OpenAnchor(link)), CLOSE_TERMS, CLOSE_ANCHOR);
  }

  /** Outside the save-mandate branch the merchant name does not reach the text. */
  lemma MerchantNameOnlyInSaveBranch(saveMandate: string -> string, continueMandate: string,
                                     name1: string, name2: string, isSaveForFutureUseSelected: bool,
                                     isInstantDebits: bool, isSetupFlow: bool)
    requires !isSaveForFutureUseSelected && !isSetupFlow
    ensures ContinueMandateText(saveMandate, continueMandate, name1, isSaveForFutureUseSelected, isInstantDebits, isSetupFlow)
         == ContinueMandateText(saveMandate, continueMandate, name2, isSaveForFutureUseSelected, isInstantDebits, isSetupFlow)
  {
  }
}
