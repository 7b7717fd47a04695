/**
 * The page state kept across reruns of the shopping-cart app: which page is
 * shown, and the cart last built from a camera frame.
 */
module Pages {
  import opened Cart

  datatype Page = Home | Payment

  /**
   * What one fetch-and-detect attempt produced: the frame's labels, or a
   * failure anywhere before the cart is stored (fetching, decoding or
   * detecting the image, or displaying it).
   */
  datatype Frame = Detected(labels: seq<string>) | CycleFailed

  /** The button pressed during one run of the page, if any. */
  datatype Click = NoClick | PayNowPressed | ConfirmPressed | BackPressed

  class Session {
    var page: Page
    var items: seq<LineItem>
    var totalAmount: nat

    /** The cart invariant: the total is the sum of the line amounts and no two lines share a name. */
    ghost predicate Valid()
      reads this
    {
      totalAmount == Sum(Amounts(items)) && Distinct(Names(items))
    }

    /** A new session starts on the home page with an empty cart. */
    constructor ()
      ensures Valid()
      ensures page == Home && items == [] && totalAmount == 0
    {
      page := Home;
      items := [];
      totalAmount := 0;
    }

    /**
     * One fetch-and-process cycle. A detected frame replaces the cart with
     * one built afresh from that frame alone; a failed cycle
     * leaves the previous cart as it was.
     */
    method ProcessFrame(frame: Frame)
      requires Valid()
      modifies this
      ensures Valid()
      ensures page == old(page)
      ensures frame.CycleFailed? ==> items == old(items) && totalAmount == old(totalAmount)
      ensures frame.Detected? ==> IsAggregation(items, frame.labels, PRICES)
      ensures frame.Detected? ==> totalAmount == Sum(UnitPrices(frame.labels, PRICES))
    {
      match frame {
        case CycleFailed =>
        case Detected(labels) =>
          var built, total := Aggregate(labels, PRICES);
          items := built;
          totalAmount := total;
      }
    }

    /** "Pay Now" on the home page moves to the payment page with the cart as it is. */
    method PayNow()
      requires Valid() && page == Home
      modifies this`page
      ensures Valid()
      ensures page == Payment
      ensures items == old(items) && totalAmount == old(totalAmount)
    {
      page := Payment;
    }

    /** "Confirm Payment" returns to the home page with an empty cart. */
    method ConfirmPayment()
      requires Valid() && page == Payment
      modifies this
      ensures Valid()
      ensures page == Home && items == [] && totalAmount == 0
    {
      page := Home;
      items := [];
      totalAmount := 0;
    }

    /** "Back to Cart" returns to the home page and keeps the cart. */
    method BackToCart()
      requires Valid() && page == Payment
      modifies this`page
      ensures Valid()
      ensures page == Home
      ensures items == old(items) && totalAmount == old(totalAmount)
    {
      page := Home;
    }

    /**
     * One run of the page script. On the home page it processes a frame and
     * then honours "Pay Now"; on the payment page it ignores the camera and
     * honours "Confirm Payment" or "Back to Cart".
     */
    method Rerun(frame: Frame, click: Click)
      requires Valid()
      modifies this
      ensures Valid()
      ensures old(page) == Home ==> page == (if click == PayNowPressed then Payment else Home)
      ensures old(page) == Home && frame.CycleFailed? ==>
                items == old(items) && totalAmount == old(totalAmount)
      ensures old(page) == Home && frame.Detected? ==>
                IsAggregation(items, frame.labels, PRICES) && totalAmount == Sum(UnitPrices(frame.labels, PRICES))
      ensures old(page) == Payment && click == ConfirmPressed ==>
                page == Home && items == [] && totalAmount == 0
      ensures old(page) == Payment && click == BackPressed ==>
                page == Home && items == old(items) && totalAmount == old(totalAmount)
      ensures old(page) == Payment && click != ConfirmPressed && click != BackPressed ==>
                page == Payment && items == old(items) && totalAmount == old(totalAmount)
    {
      if page == Home {
        ProcessFrame(frame);
        if click == PayNowPressed {
          PayNow();
        }
      } else {
        if click == ConfirmPressed {
          ConfirmPayment();
        }
        if click == BackPressed {
          BackToCart();
        }
      }
    }
  }
}
