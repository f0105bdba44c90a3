/** Rows of the listing database and the replies a route handler sends.

    The status columns are taken to be free-text (VARCHAR) columns that
    store the string literals the handlers write; the constants below are
    those literals.  Keeping them as strings (rather than an enumeration)
    lets the model tell the mark-sold handler's `'Sold'` apart from `'sold'`,
    which a VARCHAR column keeps apart and an ENUM column would not. */
module Records {

  datatype Option<+T> = None | Some(value: T)

  // Session roles, as left in the session by the login handler.
  const USER: string := "user"
  const AGENT: string := "agent"
  const ADMIN: string := "admin"

  // Values of properties.status.
  const PENDING: string := "pending"
  const LIVE: string := "live"
  /** What mark-sold writes into properties.status: capital S. */
  const SOLD_CAPITALISED: string := "Sold"

  // Values of properties.booking_status (and of the lower-case 'sold').
  const AVAILABLE: string := "available"
  const HOLD: string := "hold"
  const SOLD: string := "sold"

  // Values of property_bookings.status.
  const COMPLETED: string := "completed"
  const CANCELLED: string := "cancelled"

  // Values of property_payments.payment_status.
  const PAID: string := "paid"
  const VERIFIED: string := "verified"

  // Values of agents.status.
  const APPROVED: string := "approved"
  const REJECTED: string := "rejected"

  /** The `maxCount` both upload routes give multer for the `images` field. */
  const MAX_UPLOAD_FILES: nat := 10

  /** The seller's free-text description of a listing. */
  datatype Listing = Listing(title: string, kind: string, purpose: string, location: string, description: string)

  /** A row of `properties`.  `finalAmount` and `govtAmount` are NULL (None)
      until an agent fixes the price; `agentId` is NULL until a verify route
      assigns the acting agent. */
  datatype Property = Property(
    sellerId: nat,
    agentId: Option<nat>,
    listing: Listing,
    marketAmount: int,
    finalAmount: Option<int>,
    govtAmount: Option<int>,
    status: string,
    bookingStatus: string)

  /** The `uploaded_by` column of `property_images`. */
  datatype Uploader = BySeller | ByAgent

  /** A row of `property_images`: which property, who uploaded it and the stored file name. */
  datatype Image = Image(propertyId: nat, uploadedBy: Uploader, path: string)

  datatype Buyer = Buyer(name: string, phone: string, email: string)

  /** A row of `property_bookings`. */
  datatype Booking = Booking(propertyId: nat, buyer: Buyer, status: string)

  /** A row of `property_payments`. */
  datatype Payment = Payment(propertyId: nat, bookingId: nat, amount: int, paymentStatus: string)

  /** A row of `agents` (credentials and contact columns other than these are not modelled). */
  datatype Agent = Agent(name: string, email: string, status: string)

  /** Pages a handler redirects to. */
  datatype Page =
    | Home
    | UserDashboard
    | MyProperties
    | AgentDashboard
    | AgentVerifyPage(propertyId: nat)
    | AgentBookings
    | PaymentPage(bookingId: nat)
    | AdminDashboard
    | AdminAgents

  /** The plain-text messages a handler sends instead of redirecting. */
  datatype Notice =
    | InvalidCredentials      // "Invalid email or password"
    | AgentNotApproved        // "Agent not approved by admin"
    | AllFieldsRequired       // "All fields are required"
    | InvalidBooking          // "Invalid booking"
    | PaymentNotVerified      // "Payment not verified. Cannot mark as SOLD."
    | PropertyNotFound        // "Property not found"
    | AlreadyBooked           // "Property already booked"
    | NoImagesSelected        // "No images selected"
    | UploadImagesFirst       // "Upload images before verification"
    | FixPriceFirst           // "Fix price before verification"

  /** The HTTP answer of a handler.  `ServerError` is Express's default
      error response, sent when multer rejects an upload or a handler throws. */
  datatype Reply = Redirect(to: Page) | Send(notice: Notice) | RenderBookingForm(propertyId: nat) | ServerError

  /** JavaScript truthiness of an amount column, on the assumption that the
      driver reads it back as a JavaScript number: NULL and 0 are falsy. */
  predicate Truthy(amount: Option<int>) {
    amount.Some? && amount.value != 0
  }

  /** The price check of the verify-property handler: both amounts truthy. */
  predicate PricingFixed(p: Property) {
    Truthy(p.finalAmount) && Truthy(p.govtAmount)
  }

  /** `SELECT COUNT(*) FROM property_images WHERE property_id = pid`. */
  function CountImages(images: seq<Image>, pid: nat): (n: nat)
    ensures n <= |images|
    ensures n == |images| ==> forall i :: 0 <= i < |images| ==> images[i].propertyId == pid
  {
    if images == [] then 0
    else CountImages(images[..|images| - 1], pid) + (if images[|images| - 1].propertyId == pid then 1 else 0)
  }

  predicate HasImage(images: seq<Image>, pid: nat) {
    exists i :: 0 <= i < |images| && images[i].propertyId == pid
  }

  /** The rows one upload request inserts, one per file, in file order. */
  function ImageBatch(pid: nat, who: Uploader, files: seq<string>): (batch: seq<Image>)
    ensures |batch| == |files|
    ensures forall i :: 0 <= i < |files| ==> batch[i] == Image(pid, who, files[i])
  {
    seq(|files|, i requires 0 <= i < |files| => Image(pid, who, files[i]))
  }

  lemma {:induction false} CountImagesAppend(a: seq<Image>, b: seq<Image>, pid: nat)
    ensures CountImages(a + b, pid) == CountImages(a, pid) + CountImages(b, pid)
    decreases |b|
  {
    if b == [] {
      assert a + b == a;
    } else {
      var b' := b[..|b| - 1];
      assert (a + b)[..|a + b| - 1] == a + b';
      CountImagesAppend(a, b', pid);
    }
  }

  /** A batch for property `pid` adds |files| to that property's count and nothing to any other. */
  lemma {:induction false} CountImageBatch(pid: nat, who: Uploader, files: seq<string>, q: nat)
    ensures CountImages(ImageBatch(pid, who, files), q) == if q == pid then |files| else 0
    decreases |files|
  {
    var batch := ImageBatch(pid, who, files);
    if files != [] {
      var files' := files[..|files| - 1];
      assert batch[..|batch| - 1] == ImageBatch(pid, who, files');
      CountImageBatch(pid, who, files', q);
    }
  }

  /** The image-count guard of verify-property says the same as "some image row exists". */
  lemma {:induction false} CountImagesPositive(images: seq<Image>, pid: nat)
    ensures CountImages(images, pid) > 0 <==> HasImage(images, pid)
    decreases |images|
  {
    if images != [] {
      var init := images[..|images| - 1];
      CountImagesPositive(init, pid);
      if HasImage(init, pid) {
        var i :| 0 <= i < |init| && init[i].propertyId == pid;
        assert images[i].propertyId == pid;
      }
      if HasImage(images, pid) && images[|images| - 1].propertyId != pid {
        var i :| 0 <= i < |images| && images[i].propertyId == pid;
        assert init[i].propertyId == pid;
      }
    }
  }

  /** `UPDATE property_bookings SET status = st WHERE property_id = pid`. */
  function RestampBookings(bookings: map<nat, Booking>, pid: nat, st: string): (r: map<nat, Booking>)
    ensures r.Keys == bookings.Keys
    ensures forall b :: b in r ==> r[b].propertyId == bookings[b].propertyId && r[b].buyer == bookings[b].buyer
    ensures forall b :: b in r && bookings[b].propertyId == pid ==> r[b].status == st
    ensures forall b :: b in r && bookings[b].propertyId != pid ==> r[b] == bookings[b]
  {
    map b | b in bookings :: if bookings[b].propertyId == pid then bookings[b].(status := st) else bookings[b]
  }

  /** `SELECT * FROM property_payments WHERE property_id = pid AND payment_status = 'verified'` is non-empty. */
  predicate HasVerifiedPayment(payments: seq<Payment>, pid: nat) {
    exists i :: 0 <= i < |payments| && payments[i].propertyId == pid && payments[i].paymentStatus == VERIFIED
  }

  /** The payment query over appended rows finds a row exactly when it finds
      one among the old rows or among the new ones. */
  lemma HasVerifiedPaymentAppend(a: seq<Payment>, b: seq<Payment>, pid: nat)
    ensures HasVerifiedPayment(a + b, pid) <==> HasVerifiedPayment(a, pid) || HasVerifiedPayment(b, pid)
  {
    if HasVerifiedPayment(a + b, pid) {
      var i :| 0 <= i < |a + b| && (a + b)[i].propertyId == pid && (a + b)[i].paymentStatus == VERIFIED;
      if i < |a| {
        assert a[i] == (a + b)[i];
      } else {
        assert b[i - |a|] == (a + b)[i];
      }
    }
    if HasVerifiedPayment(a, pid) {
      var i :| 0 <= i < |a| && a[i].propertyId == pid && a[i].paymentStatus == VERIFIED;
      assert (a + b)[i] == a[i];
    }
    if HasVerifiedPayment(b, pid) {
      var i :| 0 <= i < |b| && b[i].propertyId == pid && b[i].paymentStatus == VERIFIED;
      assert (a + b)[|a| + i] == b[i];
    }
  }
}
