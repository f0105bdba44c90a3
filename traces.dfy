/** Sequences of requests, and what the handlers do and do not guarantee
    about the listing lifecycle over any such sequence.

    Two kinds of facts live here.  Invariants that every handler keeps
    (ids, who owns a listing, the values the status columns can take, that
    no payment ever becomes verified).  And facts where the handlers depart
    from the lifecycle they are meant to enforce: the second verify route,
    fix-price on a live listing, the booking post that does not re-check
    availability, mark-sold accepting any verified payment, and cancel
    re-opening a sold listing. */
module Traces {
  import opened Records
  import opened Access
  import opened Transitions

  /** One request to one of the state-changing handlers. */
  datatype Action =
    | Sell(role: string, sellerId: nat, listing: Listing, marketAmount: Option<int>)
    | Price(id: nat, finalAmount: Option<int>, govtAmount: Option<int>)
    | SellerUpload(role: string, id: nat, files: Option<seq<string>>)
    | AgentUpload(role: string, id: nat, files: Option<seq<string>>)
    | Verify(role: string, agentId: nat, id: nat)
    | QuickVerify(role: string, agentId: nat, id: nat)
    | Book(id: nat, buyer: Buyer)
    | Cancel(id: nat)
    | Pay(bookingId: nat, amount: int)
    | Close(id: nat)
    | Approve(role: string, id: nat)
    | Reject(role: string, id: nat)
    | Hire(role: string, name: string, email: string)

  /** The handler a request reaches.  No handler ever takes back an id. */
  function Apply(s: Store, a: Action): (t: Step)
    ensures t.store.nextProperty >= s.nextProperty
    ensures t.store.nextBooking >= s.nextBooking
    ensures t.store.nextAgent >= s.nextAgent
  {
    match a
    case Sell(role, seller, listing, amount) => SubmitListing(s, role, seller, listing, amount)
    case Price(id, f, g) => FixPrice(s, id, f, g)
    case SellerUpload(role, id, files) => UploadSellerImages(s, role, id, files)
    case AgentUpload(role, id, files) => UploadAgentImages(s, role, id, files)
    case Verify(role, agent, id) => VerifyListing(s, role, agent, id)
    case QuickVerify(role, agent, id) => ForceLive(s, role, agent, id)
    case Book(id, buyer) => Reserve(s, id, buyer)
    case Cancel(id) => CancelBooking(s, id)
    case Pay(bid, amount) => SubmitPayment(s, bid, amount)
    case Close(id) => MarkSold(s, id)
    case Approve(role, id) => ApproveAgent(s, role, id)
    case Reject(role, id) => RejectAgent(s, role, id)
    case Hire(role, name, email) => AddAgent(s, role, name, email)
  }

  /** The database after the requests `acts`, handled one after another. */
  function Run(s: Store, acts: seq<Action>): (r: Store)
    ensures r.nextProperty >= s.nextProperty
    ensures r.nextBooking >= s.nextBooking
    ensures r.nextAgent >= s.nextAgent
    decreases |acts|
  {
    if acts == [] then s else Run(Apply(s, acts[0]).store, acts[1..])
  }

  // ------------------------------------------------------------ invariants

  lemma ApplyKeepsWellFormed(s: Store, a: Action)
    requires WellFormed(s)
    ensures WellFormed(Apply(s, a).store)
  {
  }

  lemma {:induction false} RunKeepsWellFormed(s: Store, acts: seq<Action>)
    requires WellFormed(s)
    ensures WellFormed(Run(s, acts))
    decreases |acts|
  {
    if acts != [] {
      ApplyKeepsWellFormed(s, acts[0]);
      RunKeepsWellFormed(Apply(s, acts[0]).store, acts[1..]);
    }
  }

  /** An existing listing stays, keeps its seller and the seller's fields,
      and once it has left `pending` it never returns there. */
  predicate RowKept(p: Property, q: Property) {
    && q.sellerId == p.sellerId && q.listing == p.listing && q.marketAmount == p.marketAmount
    && (p.status != PENDING ==> q.status != PENDING)
  }

  lemma ApplyKeepsRow(s: Store, a: Action, id: nat)
    requires WellFormed(s) && id in s.properties
    ensures id in Apply(s, a).store.properties
    ensures RowKept(s.properties[id], Apply(s, a).store.properties[id])
  {
  }

  lemma {:induction false} RunKeepsRow(s: Store, acts: seq<Action>, id: nat)
    requires WellFormed(s) && id in s.properties
    ensures id in Run(s, acts).properties
    ensures RowKept(s.properties[id], Run(s, acts).properties[id])
    decreases |acts|
  {
    if acts != [] {
      var s1 := Apply(s, acts[0]).store;
      ApplyKeepsWellFormed(s, acts[0]);
      ApplyKeepsRow(s, acts[0], id);
      RunKeepsRow(s1, acts[1..], id);
    }
  }

  /** The values the handlers ever write into the two status columns of a
      listing.  `status` is one of pending, live and Sold (never the
      lower-case `sold` of booking_status). */
  predicate StatusDomain(s: Store) {
    forall id :: id in s.properties ==>
      && s.properties[id].status in {PENDING, LIVE, SOLD_CAPITALISED}
      && s.properties[id].bookingStatus in {AVAILABLE, HOLD, SOLD}
  }

  lemma ApplyKeepsStatusDomain(s: Store, a: Action)
    requires StatusDomain(s)
    ensures StatusDomain(Apply(s, a).store)
  {
  }

  lemma {:induction false} RunKeepsStatusDomain(s: Store, acts: seq<Action>)
    requires StatusDomain(s)
    ensures StatusDomain(Run(s, acts))
    decreases |acts|
  {
    if acts != [] {
      ApplyKeepsStatusDomain(s, acts[0]);
      RunKeepsStatusDomain(Apply(s, acts[0]).store, acts[1..]);
    }
  }

  /** From the empty database no sequence of requests ever gives a listing
      the status `sold` the lifecycle calls terminal: mark-sold writes `Sold`,
      which a free-text status column stores as written. */
  lemma NeverLowerCaseSold(acts: seq<Action>, id: nat)
    requires id in Run(EmptyStore(), acts).properties
    ensures Run(EmptyStore(), acts).properties[id].status != SOLD
  {
    RunKeepsStatusDomain(EmptyStore(), acts);
  }

  // ---------------------------------------------------- payment verification

  /** No handler writes `verified` into a payment: the only payment a
      handler creates is `paid`, and no handler updates a payment row. */
  lemma ApplyNeverVerifies(s: Store, a: Action, pid: nat)
    ensures HasVerifiedPayment(Apply(s, a).store.payments, pid) <==> HasVerifiedPayment(s.payments, pid)
  {
    if a.Pay? && a.bookingId in s.bookings {
      HasVerifiedPaymentAppend(s.payments, [Payment(s.bookings[a.bookingId].propertyId, a.bookingId, a.amount, PAID)], pid);
    }
  }

  lemma {:induction false} RunNeverVerifies(s: Store, acts: seq<Action>, pid: nat)
    ensures HasVerifiedPayment(Run(s, acts).payments, pid) <==> HasVerifiedPayment(s.payments, pid)
    decreases |acts|
  {
    if acts != [] {
      ApplyNeverVerifies(s, acts[0], pid);
      RunNeverVerifies(Apply(s, acts[0]).store, acts[1..], pid);
    }
  }

  /** Consequently, starting from the empty database, mark-sold refuses every
      property after every sequence of requests, and changes nothing. */
  lemma SaleNeverCloses(acts: seq<Action>, id: nat)
    ensures MarkSold(Run(EmptyStore(), acts), id) == Step(Run(EmptyStore(), acts), Send(PaymentNotVerified))
  {
    RunNeverVerifies(EmptyStore(), acts, id);
  }

  // -------------------------------------------------------- image uploads

  /** An accepted upload adds one image row per file to the property named
      in the path, and none to any other; a refused one adds none. */
  lemma UploadCounts(s: Store, role: string, id: nat, files: Option<seq<string>>, q: nat)
    ensures
      var n := CountImages(UploadSellerImages(s, role, id, files).store.images, q);
      if role == USER && files.Some? && |files.value| <= MAX_UPLOAD_FILES
      then n == CountImages(s.images, q) + (if q == id then |files.value| else 0)
      else n == CountImages(s.images, q)
    ensures
      var n := CountImages(UploadAgentImages(s, role, id, files).store.images, q);
      if role == AGENT && files.Some? && |files.value| <= MAX_UPLOAD_FILES
      then n == CountImages(s.images, q) + (if q == id then |files.value| else 0)
      else n == CountImages(s.images, q)
  {
    if files.Some? {
      CountImagesAppend(s.images, ImageBatch(id, BySeller, files.value), q);
      CountImageBatch(id, BySeller, files.value, q);
      CountImagesAppend(s.images, ImageBatch(id, ByAgent, files.value), q);
      CountImageBatch(id, ByAgent, files.value, q);
    }
  }

  // ------------------------------------------------------------- going live

  /** The lifecycle's requirement on a live listing: priced, and with an image. */
  predicate LiveListingsComplete(s: Store) {
    forall id :: id in s.properties && s.properties[id].status == LIVE ==>
      PricingFixed(s.properties[id]) && HasImage(s.images, id)
  }

  lemma HasImageExtends(images: seq<Image>, more: seq<Image>, id: nat)
    requires HasImage(images, id)
    ensures HasImage(images + more, id)
  {
    var i :| 0 <= i < |images| && images[i].propertyId == id;
    assert (images + more)[i] == images[i];
  }

  /** The guarded verify route only makes live a listing that is priced and
      has an image row. */
  lemma VerifyListingGoesLiveComplete(s: Store, role: string, agentId: nat, id: nat)
    requires VerifyAllowed(s, role, id)
    ensures HasImage(VerifyListing(s, role, agentId, id).store.images, id)
    ensures PricingFixed(VerifyListing(s, role, agentId, id).store.properties[id])
    ensures VerifyListing(s, role, agentId, id).store.properties[id].status == LIVE
  {
    CountImagesPositive(s.images, id);
  }

  /** Every handler except the second verify route and fix-price keeps the
      lifecycle's requirement on live listings. */
  lemma ApplyKeepsLiveListingsComplete(s: Store, a: Action)
    requires LiveListingsComplete(s)
    requires !a.QuickVerify? && !a.Price?
    ensures LiveListingsComplete(Apply(s, a).store)
  {
    var t := Apply(s, a).store;
    forall id | id in t.properties && t.properties[id].status == LIVE
      ensures PricingFixed(t.properties[id]) && HasImage(t.images, id)
    {
      if a.Verify? && VerifyAllowed(s, a.role, a.id) && id == a.id {
        VerifyListingGoesLiveComplete(s, a.role, a.agentId, a.id);
      } else {
        assert id in s.properties && s.properties[id].status == LIVE;
        assert t.properties[id].finalAmount == s.properties[id].finalAmount;
        assert t.properties[id].govtAmount == s.properties[id].govtAmount;
        HasImageExtends(s.images, t.images[|s.images|..], id);
        assert s.images + t.images[|s.images|..] == t.images;
      }
    }
  }

  /** The second verify route makes live a listing that has no image or no
      price, which the guarded route refuses. */
  lemma ForceLiveSkipsGuards(s: Store, agentId: nat, id: nat)
    requires id in s.properties
    requires !HasImage(s.images, id) || !PricingFixed(s.properties[id])
    ensures VerifyListing(s, AGENT, agentId, id).store == s
    ensures ForceLive(s, AGENT, agentId, id).store.properties[id].status == LIVE
    ensures !LiveListingsComplete(ForceLive(s, AGENT, agentId, id).store)
  {
    CountImagesPositive(s.images, id);
  }

  /** fix-price has no status check: a post without a `final_amount` field
      stores NULL, and on a live listing leaves it live and unpriced. */
  lemma FixPriceUnpricesLiveListing(s: Store, id: nat, govtAmount: Option<int>)
    requires id in s.properties && s.properties[id].status == LIVE
    ensures FixPrice(s, id, None, govtAmount).store.properties[id].status == LIVE
    ensures !LiveListingsComplete(FixPrice(s, id, None, govtAmount).store)
  {
  }

  /** fix-price is a plain overwrite: the second of two posts decides. */
  lemma FixPriceLastWriteWins(s: Store, id: nat, f1: Option<int>, g1: Option<int>, f2: Option<int>, g2: Option<int>)
    ensures FixPrice(FixPrice(s, id, f1, g1).store, id, f2, g2) == FixPrice(s, id, f2, g2)
  {
  }

  /** A second verification is refused, because the listing is no longer
      pending, and keeps the first agent. */
  lemma VerifyListingNotRepeatable(s: Store, a1: nat, a2: nat, id: nat)
    requires VerifyAllowed(s, AGENT, id)
    ensures
      var s1 := VerifyListing(s, AGENT, a1, id).store;
      VerifyListing(s1, AGENT, a2, id) == Step(s1, Send(FixPriceFirst))
      && s1.properties[id].agentId == Some(a1)
  {
  }

  // ------------------------------------------------------------ reservation

  /** The lifecycle's requirement: at most one `hold` booking per property. */
  predicate AtMostOneHold(s: Store, id: nat) {
    forall b1, b2 ::
      && b1 in s.bookings && s.bookings[b1].propertyId == id && s.bookings[b1].status == HOLD
      && b2 in s.bookings && s.bookings[b2].propertyId == id && s.bookings[b2].status == HOLD
      ==> b1 == b2
  }

  /** The booking post does not re-check availability: on a property that is
      already on hold, the form refuses but the post adds a second hold. */
  lemma ReserveDoesNotRecheck(s: Store, id: nat, buyer: Buyer, b: nat)
    requires WellFormed(s)
    requires id in s.properties && s.properties[id].bookingStatus == HOLD
    requires b in s.bookings && s.bookings[b].propertyId == id && s.bookings[b].status == HOLD
    ensures BookingForm(s, id) == Send(AlreadyBooked)
    ensures Reserve(s, id, buyer).reply == Redirect(PaymentPage(s.nextBooking))
    ensures !AtMostOneHold(Reserve(s, id, buyer).store, id)
  {
    var t := Reserve(s, id, buyer).store;
    assert b != s.nextBooking;
    assert t.bookings[b] == s.bookings[b];
  }

  /** A post for a property none of whose bookings is on hold keeps at most
      one hold on it.  This is a condition on the bookings table, not on the
      form: the form reads booking_status, which is `available` on a fresh
      listing even when a hold booking was posted for its id before it was
      listed. */
  lemma ReserveOnUnheldKeepsOneHold(s: Store, id: nat, buyer: Buyer)
    requires WellFormed(s)
    requires forall b :: b in s.bookings && s.bookings[b].propertyId == id ==> s.bookings[b].status != HOLD
    ensures AtMostOneHold(Reserve(s, id, buyer).store, id)
  {
  }

  /** Reserve then cancel: the property is available again, the booking just
      made is cancelled, and the booking form accepts a new buyer. */
  lemma ReserveThenCancel(s: Store, id: nat, buyer: Buyer)
    requires WellFormed(s) && id in s.properties
    ensures
      var s1 := Reserve(s, id, buyer).store;
      var s2 := CancelBooking(s1, id).store;
      && s2.properties[id].bookingStatus == AVAILABLE
      && s2.bookings[s.nextBooking].status == CANCELLED
      && BookingForm(s2, id) == RenderBookingForm(id)
      && AtMostOneHold(s2, id)
  {
  }

  /** Cancel has no state guard: it re-opens a sold listing to bookings while
      its status stays as mark-sold left it. */
  lemma CancelReopensSoldListing(s: Store, id: nat)
    requires id in s.properties && s.properties[id].bookingStatus == SOLD
    ensures BookingForm(s, id) == Send(AlreadyBooked)
    ensures BookingForm(CancelBooking(s, id).store, id) == RenderBookingForm(id)
    ensures CancelBooking(s, id).store.properties[id].status == s.properties[id].status
  {
  }

  // ------------------------------------------------------------- settlement

  /** Mark-sold asks for a verified payment of the property, not of the
      booking being closed: a hold booking with no payment at all is
      completed when some other payment of the property is verified. */
  lemma MarkSoldIgnoresWhichBooking(s: Store, id: nat, b: nat)
    requires HasVerifiedPayment(s.payments, id)
    requires b in s.bookings && s.bookings[b].propertyId == id && s.bookings[b].status == HOLD
    requires forall i :: 0 <= i < |s.payments| ==> s.payments[i].bookingId != b
    ensures MarkSold(s, id).reply == Redirect(AgentBookings)
    ensures MarkSold(s, id).store.bookings[b].status == COMPLETED
  {
  }

  /** Without a verified payment, mark-sold leaves every table as it was,
      whatever paid payments exist. */
  lemma PaidIsNotEnough(s: Store, bid: nat, amount: int)
    requires bid in s.bookings
    requires !HasVerifiedPayment(s.payments, s.bookings[bid].propertyId)
    ensures
      var s1 := SubmitPayment(s, bid, amount).store;
      MarkSold(s1, s.bookings[bid].propertyId) == Step(s1, Send(PaymentNotVerified))
  {
    ApplyNeverVerifies(s, Pay(bid, amount), s.bookings[bid].propertyId);
  }

  /** The whole lifecycle from an empty database, as far as the handlers
      take it: listed, priced, imaged, verified live, reserved and paid; the
      sale still cannot close, since nothing verifies the payment. */
  lemma LifecycleStopsBeforeSale(seller: nat, agent: nat, listing: Listing, buyer: Buyer, file: string)
    returns (live: Store, paid: Store)
    ensures
      var s1 := SubmitListing(EmptyStore(), USER, seller, listing, Some(100)).store;
      var s2 := FixPrice(s1, 1, Some(100), Some(90)).store;
      var s3 := UploadAgentImages(s2, AGENT, 1, Some([file])).store;
      && VerifyListing(s3, AGENT, agent, 1) == Step(live, Redirect(AgentDashboard))
    ensures live.properties[1].status == LIVE && live.properties[1].agentId == Some(agent)
    ensures
      var r := Reserve(live, 1, buyer);
      && r.reply == Redirect(PaymentPage(1))
      && r.store.properties[1].bookingStatus == HOLD
      && SubmitPayment(r.store, 1, 100) == Step(paid, Redirect(UserDashboard))
    ensures paid.payments == [Payment(1, 1, 100, PAID)]
    ensures MarkSold(paid, 1) == Step(paid, Send(PaymentNotVerified))
  {
    var listed := Property(seller, None, listing, 100, None, None, PENDING, AVAILABLE);
    var priced := listed.(finalAmount := Some(100), govtAmount := Some(90));
    var s1 := Store(map[1 := listed], [], map[], [], map[], 2, 1, 1);
    assert SubmitListing(EmptyStore(), USER, seller, listing, Some(100)).store == s1;
    var s2 := s1.(properties := map[1 := priced]);
    assert FixPrice(s1, 1, Some(100), Some(90)).store == s2;
    var s3 := s2.(images := [Image(1, ByAgent, file)]);
    assert ImageBatch(1, ByAgent, [file]) == [Image(1, ByAgent, file)];
    assert UploadAgentImages(s2, AGENT, 1, Some([file])).store == s3;
    assert CountImages(s3.images, 1) == 1;
    var verified := priced.(status := LIVE, agentId := Some(agent));
    assert s3.properties[1 := verified] == map[1 := verified];
    live := s3.(properties := map[1 := verified]);
    assert VerifyListing(s3, AGENT, agent, 1) == Step(live, Redirect(AgentDashboard));
    var booked := verified.(bookingStatus := HOLD);
    assert live.properties[1 := booked] == map[1 := booked];
    assert live.bookings[1 := Booking(1, buyer, HOLD)] == map[1 := Booking(1, buyer, HOLD)];
    var held := live.(properties := map[1 := booked], bookings := map[1 := Booking(1, buyer, HOLD)], nextBooking := 2);
    assert Reserve(live, 1, buyer) == Step(held, Redirect(PaymentPage(1)));
    paid := held.(payments := [Payment(1, 1, 100, PAID)]);
    assert SubmitPayment(held, 1, 100) == Step(paid, Redirect(UserDashboard));
    assert !HasVerifiedPayment(paid.payments, 1);
  }

  // ----------------------------------------------------------------- agents

  /** An agent an admin rejected is refused at login whatever the password. */
  lemma RejectedAgentCannotSignIn(s: Store, id: nat)
    requires id in s.agents
    ensures
      var status := RejectAgent(s, ADMIN, id).store.agents[id].status;
      LoginDecision(AGENT, Some(Account(id, Some(status)))) == Refused(AgentNotApproved)
  {
  }

  /** An agent an admin added or approved passes the approval check. */
  lemma ApprovedAgentSignsIn(s: Store, id: nat, name: string, email: string)
    ensures
      var s1 := AddAgent(s, ADMIN, name, email).store;
      LoginDecision(AGENT, Some(Account(s.nextAgent, Some(s1.agents[s.nextAgent].status))))
        == SignedIn(AGENT, Account(s.nextAgent, Some(APPROVED)))
    ensures id in s.agents ==>
      var status := ApproveAgent(s, ADMIN, id).store.agents[id].status;
      LoginDecision(AGENT, Some(Account(id, Some(status)))).SignedIn?
  {
  }
}
