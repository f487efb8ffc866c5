/**
 * The reservation workflow of the listing page: the selected range, the
 * total shown for it, and the submission of a reservation with its
 * loading flag and the effects it fires (sign-in sheet, POST, toasts,
 * router calls), recorded in order.
 */
module ListingClient {
  import opened Optional
  import opened Days
  import opened Pricing

  datatype Listing = Listing(id: string, price: int)

  /** The signed-in user; only their presence matters here. */
  datatype User = User(id: string)

  /** Body of the reservation-creation request (the key `listingID` as sent). */
  datatype ReservationRequest = ReservationRequest(
    totalPrice: int, startDate: Option<Day>, endDate: Option<Day>, listingID: string)

  /** An externally visible effect of the component. */
  datatype Effect =
    | OpenSignInSheet
    | Post(url: string, body: ReservationRequest)
    | ToastSuccess(message: string)
    | ToastError(message: string)
    | RouterRefresh
    | RouterPush(path: string)

  const ReservationsEndpoint: string := "/api/reservations/"
  const SuccessMessage: string := "Reservation Done"
  const FailureMessage: string := "Something went wrong"
  const TripsPath: string := "/trips"

  predicate IsPost(e: Effect) { e.Post? }

  /** A toast that reports how a POST settled. */
  predicate IsOutcome(e: Effect) { e.ToastSuccess? || e.ToastError? }

  /** The number of effects in `effects` that satisfy `p`. */
  function Count(effects: seq<Effect>, p: Effect -> bool): nat
  {
    if effects == [] then 0
    else Count(effects[..|effects| - 1], p) + (if p(effects[|effects| - 1]) then 1 else 0)
  }

  lemma {:induction false} CountAppend(a: seq<Effect>, b: seq<Effect>, p: Effect -> bool)
    ensures Count(a + b, p) == Count(a, p) + Count(b, p)
    decreases |b|
  {
    if b == [] {
      assert a + b == a;
    } else {
      CountAppend(a, b[..|b| - 1], p);
      assert (a + b)[..|a + b| - 1] == a + b[..|b| - 1];
    }
  }

  /** The effects the success handler fires, in order. */
  function SuccessEffects(): seq<Effect>
  {
    [ToastSuccess(SuccessMessage), RouterRefresh, RouterPush(TripsPath)]
  }

  /** The success path sends no request and reports its outcome exactly once. */
  lemma SuccessEffectsCounts()
    ensures Count(SuccessEffects(), IsPost) == 0 && Count(SuccessEffects(), IsOutcome) == 1
  {
    var toast, both := [ToastSuccess(SuccessMessage)], [ToastSuccess(SuccessMessage), RouterRefresh];
    assert toast[..0] == [] && both[..1] == toast && SuccessEffects()[..2] == both;
    assert Count(toast, IsPost) == 0 && Count(toast, IsOutcome) == 1;
    assert Count(both, IsPost) == 0 && Count(both, IsOutcome) == 1;
  }

  class ListingController {
    const listing: Listing
    const currentUser: Option<User>
    /**
     * The day on which the initial range was built, when the component's
     * module was first evaluated; every mount and every reset after a
     * success reuses that same day.
     */
    const today: Day

    var isLoading: bool
    var totalPrice: int
    var dateRange: DateRange
    /** Every effect fired so far, oldest first. */
    var effects: seq<Effect>
    /** Reservation requests sent and not yet settled. */
    ghost var pending: nat

    /**
     * Each settled request produced exactly one toast; loading implies a
     * request in flight; the total is never stale for a complete range.
     */
    ghost predicate Valid()
      reads this
    {
      && Count(effects, IsOutcome) + pending == Count(effects, IsPost)
      && (isLoading ==> pending > 0)
      && (dateRange.Complete() ==>
            totalPrice == TotalFor(dateRange.startDate.value, dateRange.endDate.value, listing.price))
    }

    /** At most one request in flight, and loading exactly while it is. */
    ghost predicate SingleFlight()
      reads this
    {
      pending <= 1 && (isLoading <==> pending == 1)
    }

    /** The request the submit handler would send now. */
    function CurrentRequest(): ReservationRequest
      reads this
    {
      ReservationRequest(totalPrice, dateRange.startDate, dateRange.endDate, listing.id)
    }

    constructor (listing: Listing, currentUser: Option<User>, today: Day)
      ensures Valid() && SingleFlight()
      ensures this.listing == listing && this.currentUser == currentUser && this.today == today
      ensures !isLoading && totalPrice == listing.price && dateRange == SameDay(today)
      ensures effects == []
    {
      this.listing := listing;
      this.currentUser := currentUser;
      this.today := today;
      isLoading := false;
      totalPrice := listing.price;
      dateRange := SameDay(today);
      effects := [];
      pending := 0;
    }

    /**
     * The submit handler as written: without a user it only opens the
     * sign-in sheet; with one it sets loading and sends one POST carrying
     * the current total, range and listing id. It does not itself check
     * `isLoading`.
     */
    method OnCreateReservation()
      requires Valid()
      modifies this
      ensures Valid()
      ensures dateRange == old(dateRange) && totalPrice == old(totalPrice)
      ensures currentUser.None? ==>
        && effects == old(effects) + [OpenSignInSheet]
        && isLoading == old(isLoading) && pending == old(pending)
      ensures currentUser.Some? ==>
        && effects == old(effects) + [Post(ReservationsEndpoint, old(CurrentRequest()))]
        && isLoading && pending == old(pending) + 1
      ensures currentUser.Some? && dateRange.Complete() ==>
        effects[|effects| - 1].body.totalPrice
          == TotalFor(dateRange.startDate.value, dateRange.endDate.value, listing.price)
    {
      if currentUser.None? {
        effects := effects + [OpenSignInSheet];
        CountAppend(old(effects), [OpenSignInSheet], IsOutcome);
        CountAppend(old(effects), [OpenSignInSheet], IsPost);
        assert [OpenSignInSheet][..0] == [];
        return;
      }
      isLoading := true;
      var post := Post(ReservationsEndpoint, CurrentRequest());
      effects := effects + [post];
      pending := pending + 1;
      CountAppend(old(effects), [post], IsOutcome);
      CountAppend(old(effects), [post], IsPost);
      assert [post][..0] == [];
    }

    /**
     * Pressing the submit control, which is disabled while loading: a press
     * during a request changes nothing, otherwise it runs the handler.
     */
    method Submit()
      requires Valid()
      modifies this
      ensures Valid()
      ensures old(SingleFlight()) ==> SingleFlight()
      ensures old(isLoading) ==>
        effects == old(effects) && isLoading && pending == old(pending)
        && dateRange == old(dateRange) && totalPrice == old(totalPrice)
      ensures !old(isLoading) ==>
        && dateRange == old(dateRange) && totalPrice == old(totalPrice)
        && (currentUser.None? ==>
              effects == old(effects) + [OpenSignInSheet] && !isLoading && pending == old(pending))
        && (currentUser.Some? ==>
              effects == old(effects) + [Post(ReservationsEndpoint, old(CurrentRequest()))]
              && isLoading && pending == old(pending) + 1)
    {
      if isLoading {
        return;
      }
      OnCreateReservation();
    }

    /**
     * The pending request settles. Success: toast, range back to the initial
     * one (which brings the total back to the daily price), refresh, go to
     * the trips page. Failure: one error toast, nothing else. Loading ends
     * either way.
     */
    method Resolve(success: bool)
      requires Valid() && pending > 0
      modifies this
      ensures Valid()
      ensures old(SingleFlight()) ==> SingleFlight()
      ensures !isLoading && pending == old(pending) - 1
      ensures success ==>
        && effects == old(effects) + SuccessEffects()
        && dateRange == SameDay(today) && totalPrice == listing.price
      ensures !success ==>
        && effects == old(effects) + [ToastError(FailureMessage)]
        && dateRange == old(dateRange) && totalPrice == old(totalPrice)
    {
      if success {
        effects := effects + [ToastSuccess(SuccessMessage)];
        dateRange := SameDay(today);
        totalPrice := NextTotal(dateRange, listing.price, totalPrice);
        effects := effects + [RouterRefresh];
        effects := effects + [RouterPush(TripsPath)];
        assert effects == old(effects) + SuccessEffects();
        SuccessEffectsCounts();
        CountAppend(old(effects), SuccessEffects(), IsOutcome);
        CountAppend(old(effects), SuccessEffects(), IsPost);
      } else {
        var toast := ToastError(FailureMessage);
        effects := effects + [toast];
        CountAppend(old(effects), [toast], IsOutcome);
        CountAppend(old(effects), [toast], IsPost);
        assert [toast][..0] == [];
      }
      isLoading := false;
      pending := pending - 1;
    }

    /** The calendar reports a new selection; the price effect recomputes the total. */
    method ChangeDate(value: DateRange)
      requires Valid()
      modifies this
      ensures Valid()
      ensures old(SingleFlight()) ==> SingleFlight()
      ensures dateRange == value
      ensures value.Complete() ==>
        totalPrice == TotalFor(value.startDate.value, value.endDate.value, listing.price)
      ensures !value.Complete() ==> totalPrice == old(totalPrice)
      ensures effects == old(effects) && isLoading == old(isLoading) && pending == old(pending)
    {
      dateRange := value;
      totalPrice := NextTotal(value, listing.price, totalPrice);
    }
  }

  /** A signed-out visitor presses reserve: only the sign-in sheet opens. */
  method SignedOutSubmission(listing: Listing, today: Day)
    returns (effects: seq<Effect>, loading: bool, range: DateRange, total: int)
    ensures effects == [OpenSignInSheet]
    ensures !loading && range == SameDay(today) && total == listing.price
  {
    var page := new ListingController(listing, None, today);
    page.Submit();
    effects, loading, range, total := page.effects, page.isLoading, page.dateRange, page.totalPrice;
  }

  /**
   * A signed-in user selects `startDate`..`endDate`, presses reserve and the
   * request succeeds: one POST with the range's total, then the success
   * effects; the selection and total are back to their initial values.
   */
  method SuccessfulReservation(listing: Listing, user: User, today: Day, startDate: Day, endDate: Day)
    returns (effects: seq<Effect>, loading: bool, range: DateRange, total: int)
    ensures effects == [
      Post(ReservationsEndpoint,
           ReservationRequest(TotalFor(startDate, endDate, listing.price), Some(startDate), Some(endDate), listing.id)),
      ToastSuccess(SuccessMessage), RouterRefresh, RouterPush(TripsPath)]
    ensures !loading && range == SameDay(today) && total == listing.price
  {
    var page := new ListingController(listing, Some(user), today);
    page.ChangeDate(DateRange(Some(startDate), Some(endDate)));
    page.Submit();
    page.Resolve(true);
    effects, loading, range, total := page.effects, page.isLoading, page.dateRange, page.totalPrice;
  }

  /**
   * As above but the request fails: one POST, one error toast, no
   * navigation, and the selection and its total stay as they were.
   */
  method FailedReservation(listing: Listing, user: User, today: Day, startDate: Day, endDate: Day)
    returns (effects: seq<Effect>, loading: bool, range: DateRange, total: int)
    ensures effects == [
      Post(ReservationsEndpoint,
           ReservationRequest(TotalFor(startDate, endDate, listing.price), Some(startDate), Some(endDate), listing.id)),
      ToastError(FailureMessage)]
    ensures !loading && range == DateRange(Some(startDate), Some(endDate))
    ensures total == TotalFor(startDate, endDate, listing.price)
  {
    var page := new ListingController(listing, Some(user), today);
    page.ChangeDate(DateRange(Some(startDate), Some(endDate)));
    page.Submit();
    page.Resolve(false);
    effects, loading, range, total := page.effects, page.isLoading, page.dateRange, page.totalPrice;
  }

  /** Pressing reserve twice before the request settles sends exactly one POST. */
  method DoublePress(listing: Listing, user: User, today: Day)
    returns (effects: seq<Effect>, loading: bool)
    ensures effects == [Post(ReservationsEndpoint, ReservationRequest(listing.price, Some(today), Some(today), listing.id))]
    ensures loading
  {
    var page := new ListingController(listing, Some(user), today);
    page.Submit();
    page.Submit();
    effects, loading := page.effects, page.isLoading;
  }
}
