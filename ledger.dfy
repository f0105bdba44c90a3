/** The database the route handlers share, as an object whose tables the
    handlers update in place.  Each method carries the guards of its handler
    in the order the handler runs its queries, and is proved to leave the
    tables and to reply exactly as the matching step function of
    `Transitions` says. */
module LedgerStore {
  import opened Records
  import opened Transitions

  class Ledger {
    var properties: map<nat, Property>
    var images: seq<Image>
    var bookings: map<nat, Booking>
    var payments: seq<Payment>
    var agents: map<nat, Agent>
    var nextProperty: nat
    var nextBooking: nat
    var nextAgent: nat

    /** The tables as one value. */
    ghost function Snapshot(): (st: Store)
      reads this
    {
      Store(properties, images, bookings, payments, agents, nextProperty, nextBooking, nextAgent)
    }

    ghost predicate Valid()
      reads this
    {
      WellFormed(Snapshot())
    }

    constructor ()
      ensures Valid() && Snapshot() == EmptyStore()
    {
      properties, images, bookings, payments, agents := map[], [], map[], [], map[];
      nextProperty, nextBooking, nextAgent := 1, 1, 1;
    }

    /** POST /user/sell. */
    method SubmitListing(role: string, sellerId: nat, listing: Listing, marketAmount: Option<int>) returns (reply: Reply)
      requires Valid()
      modifies this
      ensures Valid()
      ensures Step(Snapshot(), reply) == Transitions.SubmitListing(old(Snapshot()), role, sellerId, listing, marketAmount)
    {
      if role != USER {
        return Redirect(Home);
      }
      var amount := if marketAmount.Some? then marketAmount.value else 0;
      properties := properties[nextProperty := Property(sellerId, None, listing, amount, None, None, PENDING, AVAILABLE)];
      nextProperty := nextProperty + 1;
      reply := Redirect(UserDashboard);
    }

    /** POST /agent/fix-price/:id. */
    method FixPrice(id: nat, finalAmount: Option<int>, govtAmount: Option<int>) returns (reply: Reply)
      requires Valid()
      modifies this
      ensures Valid()
      ensures Step(Snapshot(), reply) == Transitions.FixPrice(old(Snapshot()), id, finalAmount, govtAmount)
    {
      if id in properties {
        properties := properties[id := properties[id].(finalAmount := finalAmount, govtAmount := govtAmount)];
      }
      reply := Redirect(AgentVerifyPage(id));
    }

    /** The `forEach` of both upload handlers: one INSERT per file, in order. */
    method InsertImages(id: nat, who: Uploader, files: seq<string>)
      modifies this
      ensures images == old(images) + ImageBatch(id, who, files)
      ensures Snapshot() == old(Snapshot()).(images := images)
    {
      var i := 0;
      while i < |files|
        invariant 0 <= i <= |files|
        invariant images == old(images) + ImageBatch(id, who, files[..i])
        invariant Snapshot() == old(Snapshot()).(images := images)
      {
        assert ImageBatch(id, who, files[..i + 1]) == ImageBatch(id, who, files[..i]) + [Image(id, who, files[i])];
        images := images + [Image(id, who, files[i])];
        i := i + 1;
      }
      assert files[..i] == files;
    }

    /** POST /user/upload-images/:id, behind multer's file-count cap. */
    method UploadSellerImages(role: string, id: nat, files: Option<seq<string>>) returns (reply: Reply)
      requires Valid()
      modifies this
      ensures Valid()
      ensures Step(Snapshot(), reply) == Transitions.UploadSellerImages(old(Snapshot()), role, id, files)
    {
      if files.Some? && |files.value| > MAX_UPLOAD_FILES {
        return ServerError;
      }
      if role != USER {
        return Redirect(Home);
      }
      if files.None? {
        return ServerError;
      }
      InsertImages(id, BySeller, files.value);
      reply := Redirect(MyProperties);
    }

    /** POST /agent/upload-images/:id, behind multer's file-count cap. */
    method UploadAgentImages(role: string, id: nat, files: Option<seq<string>>) returns (reply: Reply)
      requires Valid()
      modifies this
      ensures Valid()
      ensures Step(Snapshot(), reply) == Transitions.UploadAgentImages(old(Snapshot()), role, id, files)
    {
      if files.Some? && |files.value| > MAX_UPLOAD_FILES {
        return ServerError;
      }
      if role != AGENT {
        return Redirect(Home);
      }
      if files.None? || |files.value| == 0 {
        return Send(NoImagesSelected);
      }
      InsertImages(id, ByAgent, files.value);
      reply := Redirect(AgentVerifyPage(id));
    }

    /** POST /agent/verify-property/:id: image count, then price and status,
        then the update. */
    method VerifyListing(role: string, agentId: nat, id: nat) returns (reply: Reply)
      requires Valid()
      modifies this
      ensures Valid()
      ensures Step(Snapshot(), reply) == Transitions.VerifyListing(old(Snapshot()), role, agentId, id)
    {
      if role != AGENT {
        return Redirect(Home);
      }
      var imgCount := CountImages(images, id);
      if imgCount == 0 {
        return Send(UploadImagesFirst);
      }
      if id !in properties || properties[id].status != PENDING
         || !Truthy(properties[id].finalAmount) || !Truthy(properties[id].govtAmount)
      {
        return Send(FixPriceFirst);
      }
      properties := properties[id := properties[id].(status := LIVE, agentId := Some(agentId))];
      reply := Redirect(AgentDashboard);
    }

    /** POST /agent/verify/:id. */
    method ForceLive(role: string, agentId: nat, id: nat) returns (reply: Reply)
      requires Valid()
      modifies this
      ensures Valid()
      ensures Step(Snapshot(), reply) == Transitions.ForceLive(old(Snapshot()), role, agentId, id)
    {
      if role != AGENT {
        return Redirect(Home);
      }
      if id in properties {
        properties := properties[id := properties[id].(status := LIVE, agentId := Some(agentId))];
      }
      reply := Redirect(AgentDashboard);
    }

    /** GET /booking/:id. */
    method ShowBookingForm(id: nat) returns (reply: Reply)
      ensures reply == Transitions.BookingForm(Snapshot(), id)
      ensures reply == RenderBookingForm(id) <==> id in properties && properties[id].bookingStatus == AVAILABLE
    {
      if id !in properties {
        return Send(PropertyNotFound);
      }
      if properties[id].bookingStatus != AVAILABLE {
        return Send(AlreadyBooked);
      }
      reply := RenderBookingForm(id);
    }

    /** POST /booking/:id: the INSERT, then the property UPDATE. */
    method Reserve(id: nat, buyer: Buyer) returns (reply: Reply)
      requires Valid()
      modifies this
      ensures Valid()
      ensures Step(Snapshot(), reply) == Transitions.Reserve(old(Snapshot()), id, buyer)
    {
      var bookingId := nextBooking;
      bookings := bookings[bookingId := Booking(id, buyer, HOLD)];
      nextBooking := nextBooking + 1;
      if id in properties {
        properties := properties[id := properties[id].(bookingStatus := HOLD)];
      }
      reply := Redirect(PaymentPage(bookingId));
    }

    /** POST /agent/cancel-booking/:propertyId: release the property, then
        cancel its bookings. */
    method CancelBooking(id: nat) returns (reply: Reply)
      requires Valid()
      modifies this
      ensures Valid()
      ensures Step(Snapshot(), reply) == Transitions.CancelBooking(old(Snapshot()), id)
    {
      if id in properties {
        properties := properties[id := properties[id].(bookingStatus := AVAILABLE)];
      }
      bookings := RestampBookings(bookings, id, CANCELLED);
      reply := Redirect(AgentBookings);
    }

    /** POST /payment/:bookingId. */
    method SubmitPayment(bookingId: nat, amount: int) returns (reply: Reply)
      requires Valid()
      modifies this
      ensures Valid()
      ensures Step(Snapshot(), reply) == Transitions.SubmitPayment(old(Snapshot()), bookingId, amount)
    {
      if bookingId !in bookings {
        return Send(InvalidBooking);
      }
      var propertyId := bookings[bookingId].propertyId;
      payments := payments + [Payment(propertyId, bookingId, amount, PAID)];
      reply := Redirect(UserDashboard);
    }

    /** POST /agent/mark-sold/:propertyId: the payment query before any update. */
    method MarkSold(id: nat) returns (reply: Reply)
      requires Valid()
      modifies this
      ensures Valid()
      ensures Step(Snapshot(), reply) == Transitions.MarkSold(old(Snapshot()), id)
    {
      if !HasVerifiedPayment(payments, id) {
        return Send(PaymentNotVerified);
      }
      if id in properties {
        properties := properties[id := properties[id].(bookingStatus := SOLD, status := SOLD_CAPITALISED)];
      }
      bookings := RestampBookings(bookings, id, COMPLETED);
      reply := Redirect(AgentBookings);
    }

    /** GET /admin/approve-agent/:id. */
    method ApproveAgent(role: string, id: nat) returns (reply: Reply)
      requires Valid()
      modifies this
      ensures Valid()
      ensures Step(Snapshot(), reply) == Transitions.ApproveAgent(old(Snapshot()), role, id)
    {
      reply := SetAgentStatus(role, id, APPROVED);
    }

    /** GET /admin/reject-agent/:id. */
    method RejectAgent(role: string, id: nat) returns (reply: Reply)
      requires Valid()
      modifies this
      ensures Valid()
      ensures Step(Snapshot(), reply) == Transitions.RejectAgent(old(Snapshot()), role, id)
    {
      reply := SetAgentStatus(role, id, REJECTED);
    }

    method SetAgentStatus(role: string, id: nat, status: string) returns (reply: Reply)
      requires Valid()
      modifies this
      ensures Valid()
      ensures Step(Snapshot(), reply) == Transitions.SetAgentStatus(old(Snapshot()), role, id, status)
    {
      if role != ADMIN {
        return Redirect(Home);
      }
      if id in agents {
        agents := agents[id := agents[id].(status := status)];
      }
      reply := Redirect(AdminDashboard);
    }

    /** POST /admin/add-agent. */
    method AddAgent(role: string, name: string, email: string) returns (reply: Reply)
      requires Valid()
      modifies this
      ensures Valid()
      ensures Step(Snapshot(), reply) == Transitions.AddAgent(old(Snapshot()), role, name, email)
    {
      if role != ADMIN {
        return Redirect(Home);
      }
      agents := agents[nextAgent := Agent(name, email, APPROVED)];
      nextAgent := nextAgent + 1;
      reply := Redirect(AdminAgents);
    }
  }
}
