/**
 * The decisions of the DemoBlaze cart page object: which laptop a position
 * word selects, the dialog message captured by the handler, the bounded
 * polling that waits for it and the exact comparison that follows, and the
 * product name carried through the shared variable store from the product
 * page to the delete link.
 */
module Cart {
  import opened JavaText
  import opened PlaywrightUtil

  const ProductNameKey: string := "productName"
  const DeleteSuffix: string := "/..//a[text()='Delete']"
  /** verifyPopupText checks the captured message at most this many times. */
  const PollLimit: nat := 10

  // ============================================================ positions

  /** clickLaptopByPosition: "first", "second", "third" in any case; any other word means the first. */
  function PositionIndex(position: string): (index: int)
    ensures 1 <= index <= 3
    ensures index == 2 <==> ToLower(position) == "second"
    ensures index == 3 <==> ToLower(position) == "third"
    ensures index == 1 <==> ToLower(position) != "second" && ToLower(position) != "third"
  {
    match ToLower(position)
    case "first" => 1
    case "second" => 2
    case "third" => 3
    case _ => 1
  }

  /** The word is compared ignoring case. */
  lemma PositionIgnoresCase(a: string, b: string)
    requires EqualsIgnoreCase(a, b)
    ensures PositionIndex(a) == PositionIndex(b)
  {
  }

  /** LAPTOP_ITEM_OPTION with the index filled in. */
  function LaptopLocator(position: string): (locator: string)
    ensures |locator| == 36
    ensures locator[..34] == "(//div[@id='tbodyid']//div//h4/a)[" && locator[35] == ']'
    ensures locator[34] == "0123"[PositionIndex(position)]
  {
    "(//div[@id='tbodyid']//div//h4/a)[" + IntToString(PositionIndex(position)) + "]"
  }

  /** An unknown word clicks the first laptop, exactly as "first" does. */
  lemma LaptopLocatorDefault(position: string)
    requires ToLower(position) != "second" && ToLower(position) != "third"
    ensures LaptopLocator(position) == LaptopLocator("first")
    ensures LaptopLocator(position) == "(//div[@id='tbodyid']//div//h4/a)[1]"
  {
    assert ToLower("first") == "first";
  }

  /** CART_PRODUCT_Details with the product name filled in. */
  function RowLocator(product: string): (locator: string)
    ensures |locator| == |product| + 40
    ensures locator[..38] == "//tbody[@id='tbodyid']//tr/td[text()='" && locator[|locator| - 2..] == "']"
    ensures locator[38..|locator| - 2] == product
  {
    "//tbody[@id='tbodyid']//tr/td[text()='" + product + "']"
  }

  /** Different product names give different row locators. */
  lemma RowLocatorInjective(p: string, q: string)
    requires RowLocator(p) == RowLocator(q)
    ensures p == q
  {
    var prefix := "//tbody[@id='tbodyid']//tr/td[text()='";
    var rp, rq := RowLocator(p), RowLocator(q);
    assert |p| == |q|;
    assert p == rp[|prefix|..|prefix| + |p|];
    assert q == rq[|prefix|..|prefix| + |q|];
  }

  // ============================================================ dialogs

  /** The field after dialogs arrive: each one overwrites it, so the last one wins. */
  function AfterDialogs(message: string, dialogs: seq<string>): (r: string)
    ensures dialogs == [] ==> r == message
    ensures dialogs != [] ==> r == dialogs[|dialogs| - 1]
    decreases |dialogs|
  {
    if dialogs == [] then message else AfterDialogs(dialogs[0], dialogs[1..])
  }

  /** The dialogs that arrive during the i-th wait (none once the sequence ends). */
  function ArrivalsAt(arrivals: seq<seq<string>>, i: nat): seq<string> {
    if i < |arrivals| then arrivals[i] else []
  }

  /**
   * The polling of verifyPopupText from check number `i` on: stop at a
   * non-empty message or after the last check, otherwise wait once, let
   * that wait's dialogs arrive and check again. Gives the final message
   * and the number of waits.
   */
  function Poll(message: string, arrivals: seq<seq<string>>, i: nat): (r: (string, nat))
    ensures r.1 <= PollLimit - i || i >= PollLimit
    ensures message != "" ==> r == (message, 0)
    ensures i >= PollLimit ==> r == (message, 0)
    decreases PollLimit - i
  {
    if i >= PollLimit || message != "" then (message, 0)
    else
      var next := Poll(AfterDialogs(message, ArrivalsAt(arrivals, i)), arrivals, i + 1);
      (next.0, next.1 + 1)
  }

  /** With no dialog at all, polling waits the full ten times and still sees nothing. */
  lemma {:induction false} PollWithoutDialogs(arrivals: seq<seq<string>>, i: nat)
    requires forall j :: 0 <= j < |arrivals| ==> arrivals[j] == []
    requires i <= PollLimit
    ensures Poll("", arrivals, i) == ("", PollLimit - i)
    decreases PollLimit - i
  {
    if i < PollLimit {
      assert ArrivalsAt(arrivals, i) == [];
      PollWithoutDialogs(arrivals, i + 1);
    }
  }

  /** A message that is still empty after polling means every check was made. */
  lemma {:induction false} PollEmptyMeansAllWaits(message: string, arrivals: seq<seq<string>>, i: nat)
    requires i <= PollLimit
    ensures Poll(message, arrivals, i).0 == "" ==> Poll(message, arrivals, i).1 == PollLimit - i
    decreases PollLimit - i
  {
    if i < PollLimit && message == "" {
      PollEmptyMeansAllWaits(AfterDialogs(message, ArrivalsAt(arrivals, i)), arrivals, i + 1);
    }
  }

  datatype PopupCheck =
    | PopupVerified
    | NoPopup                                   // AssertionError "No popup dialog was captured."
    | PopupMismatch(expected: string, actual: string)

  /** The check after polling: an empty message is no popup; otherwise the texts must be equal. */
  function PopupVerdict(message: string, expected: string): (v: PopupCheck)
    ensures v == PopupVerified <==> message != "" && message == expected
    ensures v == NoPopup <==> message == ""
  {
    if message == "" then NoPopup
    else if message != expected then PopupMismatch(expected, message)
    else PopupVerified
  }

  /** The comparison is exact: a message differing only in case is a mismatch. */
  lemma PopupCaseSensitive()
    ensures PopupVerdict("Product added.", "product added.") == PopupMismatch("product added.", "Product added.")
  {
    assert "Product added."[0] != "product added."[0];
  }

  // ============================================================ the page object

  class CartPage {
    var lastDialogMessage: string
    /** The static variable map of the utility layer, shared with every page object. */
    const store: VariableStore

    constructor (store: VariableStore)
      ensures lastDialogMessage == "" && this.store == store
    {
      lastDialogMessage := "";
      this.store := store;
    }

    /** The handler registered by clickAddToCart: it stores the dialog's message. */
    method OnDialog(message: string)
      modifies this
      ensures lastDialogMessage == message
    {
      lastDialogMessage := message;
    }

    /** clickAddToCart: the dialogs shown while the click runs go through the handler in order. */
    method ClickAddToCart(dialogs: seq<string>)
      modifies this
      ensures lastDialogMessage == AfterDialogs(old(lastDialogMessage), dialogs)
      ensures dialogs != [] ==> lastDialogMessage == dialogs[|dialogs| - 1]
    {
      for k := 0 to |dialogs|
        invariant lastDialogMessage == AfterDialogs(old(lastDialogMessage), dialogs[..k])
      {
        AfterDialogsStep(old(lastDialogMessage), dialogs[..k], dialogs[k]);
        assert dialogs[..k + 1] == dialogs[..k] + [dialogs[k]];
        OnDialog(dialogs[k]);
      }
      assert dialogs[..|dialogs|] == dialogs;
    }

    /**
     * verifyPopupText: up to ten checks, each failed one followed by a
     * 500 ms wait during which `arrivals` says which dialogs appear; then
     * the captured message must equal the expected text exactly.
     */
    method VerifyPopupText(expected: string, arrivals: seq<seq<string>>) returns (result: PopupCheck, waits: nat)
      modifies this
      ensures (lastDialogMessage, waits) == Poll(old(lastDialogMessage), arrivals, 0)
      ensures result == PopupVerdict(lastDialogMessage, expected)
      ensures waits <= PollLimit
      ensures result == NoPopup ==> waits == PollLimit
      ensures old(lastDialogMessage) != "" ==> waits == 0 && lastDialogMessage == old(lastDialogMessage)
    {
      waits := 0;
      var i := 0;
      while i < PollLimit
        invariant 0 <= i <= PollLimit && waits == i
        invariant Poll(old(lastDialogMessage), arrivals, 0)
               == (Poll(lastDialogMessage, arrivals, i).0, waits + Poll(lastDialogMessage, arrivals, i).1)
      {
        if lastDialogMessage != "" {
          break;
        }
        waits := waits + 1;
        DialogsDuringWait(ArrivalsAt(arrivals, i));
        i := i + 1;
      }
      PollEmptyMeansAllWaits(old(lastDialogMessage), arrivals, 0);
      result := PopupVerdict(lastDialogMessage, expected);
    }

    /** The dialogs of one wait reaching the handler. */
    method DialogsDuringWait(dialogs: seq<string>)
      modifies this
      ensures lastDialogMessage == AfterDialogs(old(lastDialogMessage), dialogs)
    {
      if dialogs != [] {
        OnDialog(dialogs[|dialogs| - 1]);
      }
    }

    /** memorizeProductDetails: the header's text (null if it has none) under "productName". */
    method MemorizeProductDetails(headerText: Option<string>)
      modifies store
      ensures store.variables == old(store.variables)[ProductNameKey := if headerText.Some? then Text(headerText.value) else Null]
      ensures store.GetVariableAsString(ProductNameKey) == if headerText.Some? then headerText.value else ""
    {
      store.SetVariable(ProductNameKey, if headerText.Some? then Text(headerText.value) else Null);
    }

    /** The locator of the memorized product's row, as verifyMemorizedProductInCart and verifyProductRemoved build it. */
    function MemorizedRow(): (locator: string)
      reads store
      ensures store.GetVariable(ProductNameKey).Text? ==>
        locator == RowLocator(store.GetVariable(ProductNameKey).text)
      ensures store.GetVariable(ProductNameKey).Null? ==> locator == RowLocator("")
    {
      RowLocator(store.GetVariableAsString(ProductNameKey))
    }

    /** clickDeleteProduct: the Delete link in the memorized product's row. */
    method ClickDeleteProduct() returns (deleteLocator: string)
      ensures deleteLocator == MemorizedRow() + DeleteSuffix
      ensures store.GetVariable(ProductNameKey).Text? ==>
        deleteLocator == RowLocator(store.GetVariable(ProductNameKey).text) + DeleteSuffix
    {
      var memorizedProduct := store.GetVariableAsString(ProductNameKey);
      var rowLocator := RowLocator(memorizedProduct);
      deleteLocator := rowLocator + DeleteSuffix;
    }
  }

  lemma AfterDialogsStep(message: string, dialogs: seq<string>, d: string)
    ensures AfterDialogs(message, dialogs + [d]) == d
  {
  }
}
