/** The state-changing route handlers of the listing server, each as a pure
    step from one database state to the next plus the reply it sends.

    Every function below takes the whole database (`Store`) and the request's
    inputs (path parameter, body fields, and the session's role and user id
    where the handler reads them) and returns the new database and the reply.
    Each handler is one sequential step: the callback chain of a handler is
    applied in full, in the order the code issues its queries. */
module Transitions {
  import opened Records

  /** The tables the handlers read and write.  `properties`, `bookings` and
      `agents` are keyed by their AUTO_INCREMENT id and the `next…` counters
      are the ids the next INSERT receives.  `images` and `payments` are
      append-only: no handler reads their ids or updates one of their rows. */
  datatype Store = Store(
    properties: map<nat, Property>,
    images: seq<Image>,
    bookings: map<nat, Booking>,
    payments: seq<Payment>,
    agents: map<nat, Agent>,
    nextProperty: nat,
    nextBooking: nat,
    nextAgent: nat)

  datatype Step = Step(store: Store, reply: Reply)

  /** Every row's id is below the id the next INSERT into its table hands out. */
  predicate WellFormed(s: Store) {
    && (forall id :: id in s.properties ==> id < s.nextProperty)
    && (forall id :: id in s.bookings ==> id < s.nextBooking)
    && (forall id :: id in s.agents ==> id < s.nextAgent)
  }

  /** The database before any request. */
  function EmptyStore(): (s: Store)
    ensures WellFormed(s)
  {
    Store(map[], [], map[], [], map[], 1, 1, 1)
  }

  /** Rows of `properties` other than `id` are untouched and no row is added or removed. */
  predicate OtherPropertiesUnchanged(s: Store, t: Store, id: nat) {
    && t.properties.Keys == s.properties.Keys
    && forall k :: k in s.properties && k != id ==> t.properties[k] == s.properties[k]
  }

  // ---------------------------------------------------------------- listing

  /** POST /user/sell: a signed-in user lists a property.  No field is
      validated: the seller's ask is parseFloat(...) || 0, modelled as the
      parsed integer or 0 when it does not parse (None). */
  function SubmitListing(s: Store, role: string, sellerId: nat, listing: Listing, marketAmount: Option<int>): (t: Step)
    ensures role != USER ==> t == Step(s, Redirect(Home))
    ensures role == USER ==> t.reply == Redirect(UserDashboard)
    ensures role == USER ==> t.store.properties.Keys == s.properties.Keys + {s.nextProperty}
    ensures role == USER ==> t.store.nextProperty == s.nextProperty + 1
    ensures role == USER ==>
      var p := t.store.properties[s.nextProperty];
      && p.sellerId == sellerId && p.listing == listing
      && p.marketAmount == (if marketAmount.Some? then marketAmount.value else 0)
      && p.status == PENDING && p.bookingStatus == AVAILABLE
      && p.finalAmount.None? && p.govtAmount.None? && p.agentId.None?
    ensures forall k :: k in s.properties && k != s.nextProperty ==> t.store.properties[k] == s.properties[k]
    ensures t.store.(properties := s.properties, nextProperty := s.nextProperty) == s
  {
    if role != USER then Step(s, Redirect(Home))
    else
      var amount := match marketAmount case Some(v) => v case None => 0;
      var p := Property(sellerId, None, listing, amount, None, None, PENDING, AVAILABLE);
      Step(s.(properties := s.properties[s.nextProperty := p], nextProperty := s.nextProperty + 1),
           Redirect(UserDashboard))
  }

  /** POST /agent/fix-price/:id.  No role check and no status check: whoever
      posts overwrites both amounts of an existing row (a missing body field
      stores NULL); an unknown id matches no row. */
  function FixPrice(s: Store, id: nat, finalAmount: Option<int>, govtAmount: Option<int>): (t: Step)
    ensures OtherPropertiesUnchanged(s, t.store, id)
    ensures t.reply == Redirect(AgentVerifyPage(id))
    ensures id !in s.properties ==> t.store == s
    ensures id in s.properties ==>
      t.store.properties[id] == s.properties[id].(finalAmount := finalAmount, govtAmount := govtAmount)
    ensures t.store.(properties := s.properties) == s
  {
    if id in s.properties then
      var p := s.properties[id];
      Step(s.(properties := s.properties[id := p.(finalAmount := finalAmount, govtAmount := govtAmount)]),
           Redirect(AgentVerifyPage(id)))
    else Step(s, Redirect(AgentVerifyPage(id)))
  }

  /** Multer's `upload.array("images", MAX_UPLOAD_FILES)` runs before either
      upload handler: a multipart request carrying more files than that fails
      with Express's error response and the handler never runs.  `files` is
      `req.files`: None when the request is not multipart, so multer leaves
      it undefined. */
  predicate TooManyFiles(files: Option<seq<string>>) {
    files.Some? && |files.value| > MAX_UPLOAD_FILES
  }

  /** POST /user/upload-images/:id: one `seller` image row per uploaded file.
      Neither the property's existence nor its owner is checked, and an
      undefined `req.files` makes the handler throw. */
  function UploadSellerImages(s: Store, role: string, id: nat, files: Option<seq<string>>): (t: Step)
    ensures TooManyFiles(files) ==> t == Step(s, ServerError)
    ensures !TooManyFiles(files) && role != USER ==> t == Step(s, Redirect(Home))
    ensures role == USER && files.None? ==> t == Step(s, ServerError)
    ensures role == USER && files.Some? && |files.value| <= MAX_UPLOAD_FILES ==>
      && t.reply == Redirect(MyProperties)
      && |t.store.images| == |s.images| + |files.value|
      && t.store.images[..|s.images|] == s.images
      && forall i :: 0 <= i < |files.value| ==> t.store.images[|s.images| + i] == Image(id, BySeller, files.value[i])
    ensures t.store.(images := s.images) == s
  {
    if TooManyFiles(files) then Step(s, ServerError)
    else if role != USER then Step(s, Redirect(Home))
    else if files.None? then Step(s, ServerError)
    else Step(s.(images := s.images + ImageBatch(id, BySeller, files.value)), Redirect(MyProperties))
  }

  /** POST /agent/upload-images/:id: as the seller's upload, but a missing or
      empty upload is refused and the rows say `agent`. */
  function UploadAgentImages(s: Store, role: string, id: nat, files: Option<seq<string>>): (t: Step)
    ensures TooManyFiles(files) ==> t == Step(s, ServerError)
    ensures !TooManyFiles(files) && role != AGENT ==> t == Step(s, Redirect(Home))
    ensures role == AGENT && (files.None? || files.value == []) ==> t == Step(s, Send(NoImagesSelected))
    ensures role == AGENT && files.Some? && 0 < |files.value| <= MAX_UPLOAD_FILES ==>
      && t.reply == Redirect(AgentVerifyPage(id))
      && |t.store.images| == |s.images| + |files.value|
      && t.store.images[..|s.images|] == s.images
      && forall i :: 0 <= i < |files.value| ==> t.store.images[|s.images| + i] == Image(id, ByAgent, files.value[i])
    ensures t.store.(images := s.images) == s
  {
    if TooManyFiles(files) then Step(s, ServerError)
    else if role != AGENT then Step(s, Redirect(Home))
    else if files.None? || files.value == [] then Step(s, Send(NoImagesSelected))
    else Step(s.(images := s.images + ImageBatch(id, ByAgent, files.value)), Redirect(AgentVerifyPage(id)))
  }

  /** The three guards of POST /agent/verify-property/:id, in the handler's
      order: the caller is an agent, the property has an image row, and the
      property exists with status `pending` and both amounts truthy. */
  predicate VerifyAllowed(s: Store, role: string, id: nat)
    ensures VerifyAllowed(s, role, id) ==> role == AGENT && HasImage(s.images, id)
    ensures role == AGENT && id in s.properties && s.properties[id].status == PENDING && PricingFixed(s.properties[id]) ==>
      (VerifyAllowed(s, role, id) <==> HasImage(s.images, id))
  {
    CountImagesPositive(s.images, id);
    && role == AGENT
    && CountImages(s.images, id) != 0
    && id in s.properties
    && s.properties[id].status == PENDING
    && PricingFixed(s.properties[id])
  }

  /** POST /agent/verify-property/:id: the guarded promotion of a listing to `live`. */
  function VerifyListing(s: Store, role: string, agentId: nat, id: nat): (t: Step)
    ensures OtherPropertiesUnchanged(s, t.store, id)
    ensures !VerifyAllowed(s, role, id) ==> t.store == s
    ensures role != AGENT ==> t.reply == Redirect(Home)
    ensures role == AGENT && CountImages(s.images, id) == 0 ==> t.reply == Send(UploadImagesFirst)
    ensures role == AGENT && CountImages(s.images, id) != 0 && !VerifyAllowed(s, role, id) ==> t.reply == Send(FixPriceFirst)
    ensures VerifyAllowed(s, role, id) ==>
      && t.reply == Redirect(AgentDashboard)
      && t.store.properties[id] == s.properties[id].(status := LIVE, agentId := Some(agentId))
    ensures t.store.(properties := s.properties) == s
  {
    if role != AGENT then Step(s, Redirect(Home))
    else if CountImages(s.images, id) == 0 then Step(s, Send(UploadImagesFirst))
    else if id !in s.properties || s.properties[id].status != PENDING
         || !Truthy(s.properties[id].finalAmount) || !Truthy(s.properties[id].govtAmount)
    then Step(s, Send(FixPriceFirst))
    else
      var p := s.properties[id];
      Step(s.(properties := s.properties[id := p.(status := LIVE, agentId := Some(agentId))]), Redirect(AgentDashboard))
  }

  /** POST /agent/verify/:id: the second verify route.  Any agent sets any
      existing property `live` and takes it over, with no image, price or
      status check. */
  function ForceLive(s: Store, role: string, agentId: nat, id: nat): (t: Step)
    ensures OtherPropertiesUnchanged(s, t.store, id)
    ensures role != AGENT ==> t == Step(s, Redirect(Home))
    ensures role == AGENT ==> t.reply == Redirect(AgentDashboard)
    ensures role != AGENT || id !in s.properties ==> t.store == s
    ensures role == AGENT && id in s.properties ==>
      t.store.properties[id] == s.properties[id].(status := LIVE, agentId := Some(agentId))
    ensures t.store.(properties := s.properties) == s
  {
    if role != AGENT then Step(s, Redirect(Home))
    else if id in s.properties then
      var p := s.properties[id];
      Step(s.(properties := s.properties[id := p.(status := LIVE, agentId := Some(agentId))]), Redirect(AgentDashboard))
    else Step(s, Redirect(AgentDashboard))
  }

  // ------------------------------------------------------------ reservation

  /** GET /booking/:id: the only place that looks at booking_status before a
      reservation.  It reads and changes nothing. */
  function BookingForm(s: Store, id: nat): (r: Reply)
    ensures r == RenderBookingForm(id) <==> id in s.properties && s.properties[id].bookingStatus == AVAILABLE
    ensures r == Send(PropertyNotFound) <==> id !in s.properties
    ensures r == Send(AlreadyBooked) <==> id in s.properties && s.properties[id].bookingStatus != AVAILABLE
  {
    if id !in s.properties then Send(PropertyNotFound)
    else if s.properties[id].bookingStatus != AVAILABLE then Send(AlreadyBooked)
    else RenderBookingForm(id)
  }

  /** POST /booking/:id: insert a `hold` booking, then set the property's
      booking_status to `hold`.  Availability is not re-checked, no role is
      required, and an unknown property id still gets its booking row. */
  function Reserve(s: Store, id: nat, buyer: Buyer): (t: Step)
    ensures OtherPropertiesUnchanged(s, t.store, id)
    ensures t.reply == Redirect(PaymentPage(s.nextBooking))
    ensures t.store.bookings.Keys == s.bookings.Keys + {s.nextBooking}
    ensures t.store.bookings[s.nextBooking] == Booking(id, buyer, HOLD)
    ensures forall b :: b in s.bookings && b != s.nextBooking ==> t.store.bookings[b] == s.bookings[b]
    ensures t.store.nextBooking == s.nextBooking + 1
    ensures id in s.properties ==> t.store.properties[id] == s.properties[id].(bookingStatus := HOLD)
    ensures id !in s.properties ==> t.store.properties == s.properties
    ensures t.store.(properties := s.properties, bookings := s.bookings, nextBooking := s.nextBooking) == s
  {
    var bid := s.nextBooking;
    var s1 := s.(bookings := s.bookings[bid := Booking(id, buyer, HOLD)], nextBooking := bid + 1);
    var s2 := if id in s1.properties
              then s1.(properties := s1.properties[id := s1.properties[id].(bookingStatus := HOLD)])
              else s1;
    Step(s2, Redirect(PaymentPage(bid)))
  }

  /** POST /agent/cancel-booking/:propertyId: release the property and cancel
      every booking on it, whatever their state or the property's.  No role
      is required. */
  function CancelBooking(s: Store, id: nat): (t: Step)
    ensures OtherPropertiesUnchanged(s, t.store, id)
    ensures t.reply == Redirect(AgentBookings)
    ensures id in s.properties ==> t.store.properties[id] == s.properties[id].(bookingStatus := AVAILABLE)
    ensures id !in s.properties ==> t.store.properties == s.properties
    ensures t.store.bookings.Keys == s.bookings.Keys
    ensures forall b :: b in s.bookings && s.bookings[b].propertyId == id ==> t.store.bookings[b] == s.bookings[b].(status := CANCELLED)
    ensures forall b :: b in s.bookings && s.bookings[b].propertyId != id ==> t.store.bookings[b] == s.bookings[b]
    ensures t.store.(properties := s.properties, bookings := s.bookings) == s
  {
    var s1 := if id in s.properties
              then s.(properties := s.properties[id := s.properties[id].(bookingStatus := AVAILABLE)])
              else s;
    Step(s1.(bookings := RestampBookings(s1.bookings, id, CANCELLED)), Redirect(AgentBookings))
  }

  // ------------------------------------------------------------- settlement

  /** POST /payment/:bookingId: record a `paid` payment against the booking's
      property.  Only the booking's existence is checked; its status, the
      property's state and the amount are not. */
  function SubmitPayment(s: Store, bookingId: nat, amount: int): (t: Step)
    ensures bookingId !in s.bookings ==> t == Step(s, Send(InvalidBooking))
    ensures bookingId in s.bookings ==>
      && t.reply == Redirect(UserDashboard)
      && t.store.payments == s.payments + [Payment(s.bookings[bookingId].propertyId, bookingId, amount, PAID)]
    ensures t.store.(payments := s.payments) == s
  {
    if bookingId !in s.bookings then Step(s, Send(InvalidBooking))
    else
      var pid := s.bookings[bookingId].propertyId;
      Step(s.(payments := s.payments + [Payment(pid, bookingId, amount, PAID)]), Redirect(UserDashboard))
  }

  /** POST /agent/mark-sold/:propertyId.  The payment query runs first and
      any verified payment of the property will do; only then are the
      property (booking_status `sold`, status `Sold`) and all its bookings
      (`completed`) updated.  No role is required. */
  function MarkSold(s: Store, id: nat): (t: Step)
    ensures OtherPropertiesUnchanged(s, t.store, id)
    ensures !HasVerifiedPayment(s.payments, id) ==> t == Step(s, Send(PaymentNotVerified))
    ensures HasVerifiedPayment(s.payments, id) ==> t.reply == Redirect(AgentBookings)
    ensures HasVerifiedPayment(s.payments, id) && id in s.properties ==>
      t.store.properties[id] == s.properties[id].(bookingStatus := SOLD, status := SOLD_CAPITALISED)
    ensures id !in s.properties ==> t.store.properties == s.properties
    ensures t.store.bookings.Keys == s.bookings.Keys
    ensures forall b :: b in s.bookings && s.bookings[b].propertyId == id && HasVerifiedPayment(s.payments, id) ==>
      t.store.bookings[b] == s.bookings[b].(status := COMPLETED)
    ensures forall b :: b in s.bookings && s.bookings[b].propertyId != id ==> t.store.bookings[b] == s.bookings[b]
    ensures t.store.(properties := s.properties, bookings := s.bookings) == s
  {
    if !HasVerifiedPayment(s.payments, id) then Step(s, Send(PaymentNotVerified))
    else
      var s1 := if id in s.properties
                then s.(properties := s.properties[id := s.properties[id].(bookingStatus := SOLD, status := SOLD_CAPITALISED)])
                else s;
      Step(s1.(bookings := RestampBookings(s1.bookings, id, COMPLETED)), Redirect(AgentBookings))
  }

  // ----------------------------------------------------------------- agents

  /** GET /admin/approve-agent/:id and /admin/reject-agent/:id: an admin
      overwrites an agent's status, whatever it was. */
  function SetAgentStatus(s: Store, role: string, id: nat, status: string): (t: Step)
    ensures role != ADMIN ==> t == Step(s, Redirect(Home))
    ensures role == ADMIN ==> t.reply == Redirect(AdminDashboard)
    ensures role != ADMIN || id !in s.agents ==> t.store == s
    ensures t.store.agents.Keys == s.agents.Keys
    ensures role == ADMIN && id in s.agents ==> t.store.agents[id] == s.agents[id].(status := status)
    ensures forall k :: k in s.agents && k != id ==> t.store.agents[k] == s.agents[k]
    ensures t.store.(agents := s.agents) == s
  {
    if role != ADMIN then Step(s, Redirect(Home))
    else if id in s.agents then
      Step(s.(agents := s.agents[id := s.agents[id].(status := status)]), Redirect(AdminDashboard))
    else Step(s, Redirect(AdminDashboard))
  }

  function ApproveAgent(s: Store, role: string, id: nat): (t: Step)
    ensures t == SetAgentStatus(s, role, id, APPROVED)
    ensures role == ADMIN && id in s.agents ==> t.store.agents[id].status == APPROVED
  {
    SetAgentStatus(s, role, id, APPROVED)
  }

  function RejectAgent(s: Store, role: string, id: nat): (t: Step)
    ensures t == SetAgentStatus(s, role, id, REJECTED)
    ensures role == ADMIN && id in s.agents ==> t.store.agents[id].status == REJECTED
  {
    SetAgentStatus(s, role, id, REJECTED)
  }

  /** POST /admin/add-agent: an admin creates an agent that is already approved. */
  function AddAgent(s: Store, role: string, name: string, email: string): (t: Step)
    ensures role != ADMIN ==> t == Step(s, Redirect(Home))
    ensures role == ADMIN ==>
      && t.reply == Redirect(AdminAgents)
      && t.store.agents.Keys == s.agents.Keys + {s.nextAgent}
      && t.store.agents[s.nextAgent] == Agent(name, email, APPROVED)
      && t.store.nextAgent == s.nextAgent + 1
    ensures forall k :: k in s.agents && k != s.nextAgent ==> t.store.agents[k] == s.agents[k]
    ensures t.store.(agents := s.agents, nextAgent := s.nextAgent) == s
  {
    if role != ADMIN then Step(s, Redirect(Home))
    else Step(s.(agents := s.agents[s.nextAgent := Agent(name, email, APPROVED)], nextAgent := s.nextAgent + 1),
              Redirect(AdminAgents))
  }
}
