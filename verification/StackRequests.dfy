/** Whole stack requests: what they are sent as, and what is read of that. */
module StackRequests {
  import opened Wire
  import opened Varints
  import opened WordBytes
  import opened Fields
  import opened Shapes
  import opened ShapeReading
  import opened ShapeRoundTrip
  import opened ShapeLimits
  import opened Items
  import opened Layouts
  import opened Requests
  import opened Actions

  function ActionsRead(xs: seq<Action>): seq<Action> { seq(|xs|, i requires 0 <= i < |xs| => ActionRead(xs[i])) }

  datatype ItemStackRequest = ItemStackRequest(id: i32, actions: seq<Action>, filters: seq<Bytes>, cause: i32) {
    predicate Valid()
    {
      |actions| < 0x1_0000_0000 && |filters| < 0x1_0000_0000 && forall i | 0 <= i < |actions| :: actions[i].Valid()
    }
    predicate Writable() { forall i | 0 <= i < |actions| :: actions[i].Writable() }
    predicate Within(c: Settings)
    {
      (c.limits ==> |actions| <= 1024 && |filters| <= 1024) && forall i | 0 <= i < |actions| :: ActionWithin(c, actions[i])
    }
    function Read(): ItemStackRequest
    {
      this.(actions := ActionsRead(actions))
    }
  }

  function ActionVals(xs: seq<Action>): seq<Val> { seq(|xs|, i requires 0 <= i < |xs| => ActionVal(xs[i])) }

  function ActionsSent(c: Settings, xs: seq<Action>): seq<Sending>
    requires forall i | 0 <= i < |xs| :: xs[i].Valid()
  {
    seq(|xs|, i requires 0 <= i < |xs| => ActionSent(c, xs[i]))
  }

  function TextVals(xs: seq<Bytes>): seq<Val> { seq(|xs|, i requires 0 <= i < |xs| => Str(xs[i])) }

  function TextsSent(xs: seq<Bytes>): seq<Sending>
  {
    seq(|xs|, i requires 0 <= i < |xs| => Sending(Varuint(|xs[i]|) + xs[i], Str(xs[i]), true))
  }

  /** The ID, the actions, the filter strings and the cause. */
  function RequestBytes(c: Settings, x: ItemStackRequest): Bytes
    requires x.Valid()
  {
    Varint(x.id)
    + ((Varuint(|x.actions|) + Joined(ActionsSent(c, x.actions)))
       + ((Varuint(|x.filters|) + Joined(TextsSent(x.filters))) + LowBytes(4, x.cause)))
  }

  function RequestVal(x: ItemStackRequest): Val
  {
    Both(Integer(x.id), Both(Many(ActionVals(x.actions)), Both(Many(TextVals(x.filters)), Integer(x.cause))))
  }

  function RequestSent(c: Settings, x: ItemStackRequest): Sending
    requires x.Valid()
  {
    Sending(RequestBytes(c, x), RequestVal(x.Read()), x.Within(c))
  }

  /** The two lists of a request, as they are sent. */
  function ActionListSent(c: Settings, xs: seq<Action>): Sending
    requires forall i | 0 <= i < |xs| :: xs[i].Valid()
  {
    Sending(Varuint(|xs|) + Joined(ActionsSent(c, xs)), Many(Backs(ActionsSent(c, xs))),
            (c.limits ==> |xs| <= 1024) && forall i | 0 <= i < |xs| :: ActionWithin(c, xs[i]))
  }

  function TextListSent(c: Settings, xs: seq<Bytes>): Sending
  {
    Sending(Varuint(|xs|) + Joined(TextsSent(xs)), Many(TextVals(xs)), c.limits ==> |xs| <= 1024)
  }

  lemma ActionListSends(c: Settings, xs: seq<Action>)
    requires |xs| < 0x1_0000_0000 && forall i | 0 <= i < |xs| :: xs[i].Valid() && xs[i].Writable()
    ensures Sends(c, Slice(VarCount, ACTION), Many(ActionVals(xs)), ActionListSent(c, xs))
  {
    hide Sends, Joined, Backs, ActionWithin, ActionBytes, ActionVal, ActionRead, Action.Valid, Action.Writable;
    forall i | 0 <= i < |xs| ensures Sends(c, ACTION, ActionVals(xs)[i], ActionsSent(c, xs)[i]) {
      ActionSends(c, xs[i]);
    }
    ListSends(c, ACTION, ActionVals(xs), ActionsSent(c, xs));
    assert forall i | 0 <= i < |xs| :: ActionsSent(c, xs)[i].within == ActionWithin(c, xs[i]);
  }

  lemma TextListSends(c: Settings, xs: seq<Bytes>)
    requires |xs| < 0x1_0000_0000
    ensures Sends(c, Slice(VarCount, Txt), Many(TextVals(xs)), TextListSent(c, xs))
  {
    hide Sends, Joined, Backs;
    forall i | 0 <= i < |xs| ensures Sends(c, Txt, TextVals(xs)[i], TextsSent(xs)[i]) {
      TextSends(c, xs[i]);
    }
    ListSends(c, Txt, TextVals(xs), TextsSent(xs));
    forall i | 0 <= i < |xs| ensures Backs(TextsSent(xs))[i] == TextVals(xs)[i] { BacksAt(TextsSent(xs), i); }
    assert Backs(TextsSent(xs)) == TextVals(xs);
  }

  lemma ActionsBack(c: Settings, xs: seq<Action>)
    requires forall i | 0 <= i < |xs| :: xs[i].Valid()
    ensures Backs(ActionsSent(c, xs)) == ActionVals(ActionsRead(xs))
  {
    hide ActionVal, ActionRead, ActionBytes, ActionWithin, Action.Valid;
    forall i | 0 <= i < |xs| ensures Backs(ActionsSent(c, xs))[i] == ActionVal(ActionRead(xs[i])) {
      BacksAt(ActionsSent(c, xs), i);
    }
  }

  lemma RequestSentIs(c: Settings, x: ItemStackRequest)
    requires x.Valid()
    ensures var a, b := ActionListSent(c, x.actions), TextListSent(c, x.filters);
      RequestSent(c, x) ==
        Sending(Varint(x.id) + (a.bytes + (b.bytes + LowBytes(4, x.cause))),
                Both(Integer(x.id), Both(a.back, Both(b.back, Integer(x.cause)))), a.within && b.within)
  {
    hide Joined, Backs, ActionsSent, ActionVals, TextVals, TextsSent, ActionWithin, Action.Valid, ActionRead;
    ActionsBack(c, x.actions);
  }

  /** What every request is sent as, and what a reader makes of it. */
  lemma RequestSends(c: Settings, x: ItemStackRequest)
    requires x.Valid() && x.Writable()
    ensures Sends(c, REQUEST, RequestVal(x), RequestSent(c, x))
  {
    var actions, texts := ActionVals(x.actions), TextVals(x.filters);
    var a, b := ActionListSent(c, x.actions), TextListSent(c, x.filters);
    SignedSends(c, x.id);
    ActionListSends(c, x.actions);
    TextListSends(c, x.filters);
    Int32Sends(c, x.cause);
    RequestSentIs(c, x);
    hide Sends, ActionListSent, TextListSent, RequestSent, ActionVals, TextVals;
    PairSends(c, Slice(VarCount, Txt), INT32, Many(texts), Integer(x.cause),
              b, Sending(LowBytes(4, x.cause), Integer(x.cause), true));
    PairSends(c, Slice(VarCount, ACTION), REQUEST.second.second, Many(actions), Both(Many(texts), Integer(x.cause)),
              a, Sending(b.bytes + LowBytes(4, x.cause), Both(b.back, Integer(x.cause)), b.within));
    PairSends(c, VAR, REQUEST.second, Integer(x.id), RequestVal(x).b, Sending(Varint(x.id), Integer(x.id), true),
              Sending(a.bytes + (b.bytes + LowBytes(4, x.cause)), Both(a.back, Both(b.back, Integer(x.cause))),
                      a.within && b.within));
  }

  function RequestIn(v: Val): ItemStackRequest
  {
    var actions, texts := Left(Right(v)), Left(Right(Right(v)));
    ItemStackRequest(I32In(Left(v)),
                     if actions.Many? then seq(|actions.xs|, i requires 0 <= i < |actions.xs| => ActionIn(actions.xs[i])) else [],
                     if texts.Many? then seq(|texts.xs|, i requires 0 <= i < |texts.xs| => StrIn(texts.xs[i])) else [],
                     I32In(Right(Right(Right(v)))))
  }

  lemma RequestBack(x: ItemStackRequest)
    ensures RequestIn(RequestVal(x)) == x
  {
    hide ActionIn, ActionVal;
    forall i | 0 <= i < |x.actions| ensures ActionIn(ActionVal(x.actions[i])) == x.actions[i] {
      ActionBack(x.actions[i]);
    }
    NumbersIn(0, 0, x.id, 0);
    NumbersIn(0, 0, x.cause, 0);
  }

  /** The bytes of a request are read as that request, or refused where a list is too long or a compound is not read. */
  lemma RequestIsRead(c: Settings, x: ItemStackRequest, t: Bytes, i: In)
    requires x.Valid() && x.Writable() && Input(Wrote(RequestBytes(c, x)), t, i)
    ensures if x.Within(c) then Back(Map(Dec(c, REQUEST, i), RequestIn), None, x.Read(), t, i)
            else Dec(c, REQUEST, i).Bad?
  {
    hide Dec, Grounded, Sends, RequestBytes, RequestVal, RequestIn, ItemStackRequest.Valid, ItemStackRequest.Writable;
    RequestGrounded();
    RequestSends(c, x);
    SentIsRead(c, REQUEST, RequestVal(x), RequestSent(c, x), t, i);
    RequestBack(x.Read());
  }
}
