/**
 Every sequence of messages and organization deletions: selections are always a chain of rows of one organization, each
 offered when it was chosen, and what happens to bookings is always confirmed, once. The inbox feeds the conversation
 each external message once.
 */
module ConversationRuns {
  import opened Options
  import opened ActionIds
  import opened Conversation

  /** A message handled against the tables of that moment, or an organization deleted with all its rows. */
  datatype Event =
    | Said(message: Message, world: World)
    | OrganizationDeleted(id: int)

  /** The foreign keys of the deleted organization's rows become empty. */
  function Unlinked(site: Site, s: State, id: int): State {
    s.(organization := if s.organization == Some(id) then None else s.organization,
       location := if s.location.Some? && site.ofLocation(s.location.value) == id then None else s.location,
       service := if s.service.Some? && site.ofService(s.service.value) == id then None else s.service,
       provider := if s.provider.Some? && site.ofProvider(s.provider.value) == id then None else s.provider)
  }

  function Next(site: Site, s: State, e: Event): Outcome {
    match e
    case Said(m, w) => Answer(site, w, s, m)
    case OrganizationDeleted(id) => Outcome(Unlinked(site, s, id), NoEffect)
  }

  function StateAfter(site: Site, s: State, events: seq<Event>): State {
    if |events| == 0 then s
    else Next(site, StateAfter(site, s, events[..|events| - 1]), events[|events| - 1]).state
  }

  /** The effect of event `k` of a run of a fresh conversation. */
  function EffectAt(site: Site, events: seq<Event>, k: nat): Effect
    requires k < |events|
  {
    Next(site, StateAfter(site, START, events[..k]), events[k]).effect
  }

  // ----- Selections form a chain ------------------------------------------------------------------------

  lemma NextKeepsChain(site: Site, s: State, e: Event)
    requires Chain(site, s)
    ensures Chain(site, Next(site, s, e).state)
  {
    if e.Said? {
      AnswersKeepChain(site, e.world, s, e.message);
    }
  }

  lemma {:induction false} ChainOverAllRuns(site: Site, events: seq<Event>)
    ensures Chain(site, StateAfter(site, START, events))
  {
    if |events| > 0 {
      ChainOverAllRuns(site, events[..|events| - 1]);
      NextKeepsChain(site, StateAfter(site, START, events[..|events| - 1]), events[|events| - 1]);
    }
  }

  // ----- Selections were offered ------------------------------------------------------------------------

  predicate LocationOffered(site: Site, events: seq<Event>, l: int) {
    exists i :: 0 <= i < |events| && events[i].Said? && VisibleLocation(site, events[i].world, l)
  }

  predicate ServiceOffered(site: Site, events: seq<Event>, l: int, v: int) {
    exists i :: 0 <= i < |events| && events[i].Said? && EligibleService(site, events[i].world, l, v)
  }

  predicate ProviderOffered(site: Site, events: seq<Event>, l: int, v: int, p: int) {
    exists i :: 0 <= i < |events| && events[i].Said? && OffersProvider(site, events[i].world, l, v, p)
  }

  /** Every selection was offered, for the selections above it, while some earlier message was handled. */
  predicate AllOffered(site: Site, events: seq<Event>, s: State) {
    && (s.location.Some? ==> LocationOffered(site, events, s.location.value))
    && (s.service.Some? && s.location.Some? ==> ServiceOffered(site, events, s.location.value, s.service.value))
    && (s.provider.Some? && s.service.Some? && s.location.Some?
        ==> ProviderOffered(site, events, s.location.value, s.service.value, s.provider.value))
  }

  lemma OfferedStays(site: Site, events: seq<Event>, e: Event, s: State)
    requires AllOffered(site, events, s)
    ensures AllOffered(site, events + [e], s)
  {
    var later := events + [e];
    assert forall i :: 0 <= i < |events| ==> later[i] == events[i];
    if s.location.Some? {
      var l := s.location.value;
      var i :| 0 <= i < |events| && events[i].Said? && VisibleLocation(site, events[i].world, l);
      assert later[i].Said?;
      if s.service.Some? {
        var j :| 0 <= j < |events| && events[j].Said? && EligibleService(site, events[j].world, l, s.service.value);
        assert later[j].Said?;
        if s.provider.Some? {
          var k :| 0 <= k < |events| && events[k].Said?
                   && OffersProvider(site, events[k].world, l, s.service.value, s.provider.value);
          assert later[k].Said?;
        }
      }
    }
  }

  /** What one message may newly select is offered by its own tables; everything else is kept or dropped. */
  predicate OffersChange(site: Site, w: World, s: State, t: State) {
    && (t.location.Some? ==> t.location == s.location || VisibleLocation(site, w, t.location.value))
    && (t.service.Some? && t.location.Some?
        ==> || (t.service == s.service && t.location == s.location)
            || EligibleService(site, w, t.location.value, t.service.value))
    && (t.provider.Some? && t.service.Some? && t.location.Some?
        ==> || (t.provider == s.provider && t.service == s.service && t.location == s.location)
            || OffersProvider(site, w, t.location.value, t.service.value, t.provider.value))
  }

  lemma ScreensOfferChange(site: Site, w: World, s: State)
    ensures OffersChange(site, w, s, Organizations(site, w, s))
    ensures OffersChange(site, w, s, MenuOrOrganizations(site, w, s))
    ensures OffersChange(site, w, s, BookingBegun(site, w, s)) && OffersChange(site, w, s, Dates(site, w, s))
    ensures forall l :: OffersChange(site, w, s, Services(site, w, s, l))
  {
  }

  lemma SelectionsOfferChange(site: Site, w: World, s: State, x: int)
    ensures OffersChange(site, w, s, OrganizationChosen(site, w, s, x))
    ensures OffersChange(site, w, s, LocationChosen(site, w, s, x))
    ensures OffersChange(site, w, s, ServiceChosen(site, w, s, x))
    ensures OffersChange(site, w, s, ProviderChosen(site, w, s, x))
  {
    ScreensOfferChange(site, w, s);
  }

  /** The handlers that select no row. */
  lemma OthersOfferChange(site: Site, w: World, s: State, command: Command)
    requires !command.SelectOrganization? && !command.SelectLocation?
    requires !command.SelectService? && !command.SelectProvider?
    ensures OffersChange(site, w, s, Handle(site, w, s, Some(command)).state)
  {
    ScreensOfferChange(site, w, s);
  }

  lemma HandlersOfferChange(site: Site, w: World, s: State, command: Option<Command>)
    ensures OffersChange(site, w, s, Handle(site, w, s, command).state)
  {
    ScreensOfferChange(site, w, s);
    if command.Some? {
      match command.value
      case SelectOrganization(id) => SelectionsOfferChange(site, w, s, id);
      case SelectLocation(l) => SelectionsOfferChange(site, w, s, l);
      case SelectService(v) => SelectionsOfferChange(site, w, s, v);
      case SelectProvider(p) => SelectionsOfferChange(site, w, s, p);
      case _ => OthersOfferChange(site, w, s, command.value);
    }
  }

  lemma AnswersOfferChange(site: Site, w: World, s: State, m: Message)
    ensures OffersChange(site, w, s, Answer(site, w, s, m).state)
  {
    ScreensOfferChange(site, w, s);
    HandlersOfferChange(site, w, s, Decode(m.action));
  }

  lemma OfferedAfter(site: Site, events: seq<Event>, m: Message, w: World, s: State, t: State)
    requires AllOffered(site, events, s) && OffersChange(site, w, s, t)
    ensures AllOffered(site, events + [Said(m, w)], t)
  {
    var later := events + [Said(m, w)];
    OfferedStays(site, events, Said(m, w), s);
    assert later[|events|] == Said(m, w);
  }

  lemma OfferedUnlinked(site: Site, events: seq<Event>, s: State, id: int)
    requires AllOffered(site, events, s)
    ensures AllOffered(site, events, Unlinked(site, s, id))
  {
  }

  lemma OfferedStep(site: Site, events: seq<Event>, e: Event, s: State)
    requires AllOffered(site, events, s)
    ensures AllOffered(site, events + [e], Next(site, s, e).state)
  {
    match e
    case Said(m, w) =>
      AnswersOfferChange(site, w, s, m);
      OfferedAfter(site, events, m, w, s, Answer(site, w, s, m).state);
    case OrganizationDeleted(id) =>
      OfferedUnlinked(site, events, s, id);
      OfferedStays(site, events, e, Unlinked(site, s, id));
  }

  lemma {:induction false} OfferedOverAllRuns(site: Site, events: seq<Event>)
    ensures AllOffered(site, events, StateAfter(site, START, events))
  {
    if |events| > 0 {
      var front, e := events[..|events| - 1], events[|events| - 1];
      OfferedOverAllRuns(site, front);
      OfferedStep(site, front, e, StateAfter(site, START, front));
      assert front + [e] == events;
    }
  }

  // ----- Effects ----------------------------------------------------------------------------------------

  /** The event's message justifies its effect in the state it found. */
  ghost predicate JustifiedAt(site: Site, events: seq<Event>, k: nat)
    requires k < |events|
  {
    match events[k]
    case Said(m, w) => Justified(site, w, StateAfter(site, START, events[..k]), m, EffectAt(site, events, k))
    case OrganizationDeleted(_) => EffectAt(site, events, k) == NoEffect
  }

  /** Whatever any run books, moves or cancels was confirmed for the right rows and a slot free at that moment. */
  lemma EffectsOverAllRuns(site: Site, events: seq<Event>, k: nat)
    requires k < |events|
    ensures JustifiedAt(site, events, k)
  {
    if events[k].Said? {
      ChainOverAllRuns(site, events[..k]);
      EffectsJustified(site, events[k].world, StateAfter(site, START, events[..k]), events[k].message);
    }
  }

  /**
   Every booking of every run is for a location, service and provider each offered for the ones before it before
   that message.
   */
  lemma BookedWasOffered(site: Site, events: seq<Event>, k: nat)
    requires k < |events| && EffectAt(site, events, k).Booked?
    ensures var b := EffectAt(site, events, k);
            && LocationOffered(site, events[..k], b.location)
            && ServiceOffered(site, events[..k], b.location, b.service)
            && ProviderOffered(site, events[..k], b.location, b.service, b.provider)
  {
    OfferedOverAllRuns(site, events[..k]);
    EffectsOverAllRuns(site, events, k);
  }

  predicate ChoosesProvider(e: Event) {
    e.Said? && var command := Decode(e.message.action); command.Some? && command.value.SelectProvider?
  }

  lemma OnlyAProviderChoiceSelectsOne(site: Site, w: World, s: State, command: Option<Command>)
    requires s.provider.None? && !(command.Some? && command.value.SelectProvider?)
    ensures Handle(site, w, s, command).state.provider.None?
  {
  }

  lemma NoProviderNoBooking(site: Site, w: World, s: State, command: Option<Command>)
    requires s.provider.None?
    ensures !Handle(site, w, s, command).effect.Booked?
  {
  }

  lemma BookedClearsProvider(site: Site, w: World, s: State, command: Option<Command>)
    requires Handle(site, w, s, command).effect.Booked?
    ensures Handle(site, w, s, command).state.provider.None?
  {
  }

  lemma NoProviderStays(site: Site, s: State, e: Event)
    requires s.provider.None? && !ChoosesProvider(e)
    ensures Next(site, s, e).state.provider.None? && !Next(site, s, e).effect.Booked?
  {
    if e.Said? {
      OnlyAProviderChoiceSelectsOne(site, e.world, s, Decode(e.message.action));
      NoProviderNoBooking(site, e.world, s, Decode(e.message.action));
    }
  }

  lemma BookingClearsProvider(site: Site, s: State, e: Event)
    requires Next(site, s, e).effect.Booked?
    ensures Next(site, s, e).state.provider.None?
  {
    BookedClearsProvider(site, e.world, s, Decode(e.message.action));
  }

  lemma StateAfterStep(site: Site, events: seq<Event>, j: nat)
    requires j < |events|
    ensures StateAfter(site, START, events[..j + 1])
            == Next(site, StateAfter(site, START, events[..j]), events[j]).state
  {
    assert events[..j + 1][..j] == events[..j];
  }

  predicate NoProviderAfter(site: Site, events: seq<Event>, k: int) {
    0 <= k <= |events| && StateAfter(site, START, events[..k]).provider.None?
  }

  lemma NoProviderStep(site: Site, events: seq<Event>, j: nat)
    requires NoProviderAfter(site, events, j) && j < |events| && !ChoosesProvider(events[j])
    ensures NoProviderAfter(site, events, j + 1)
  {
    StateAfterStep(site, events, j);
    NoProviderStays(site, StateAfter(site, START, events[..j]), events[j]);
  }

  /** What holds once and survives every step holds from then on. */
  lemma {:induction false} Persists(holds: int -> bool, i: int, j: int)
    requires i <= j && holds(i) && forall k :: i <= k < j && holds(k) ==> holds(k + 1)
    ensures holds(j)
    decreases j - i
  {
    if i < j {
      Persists(holds, i, j - 1);
    }
  }

  lemma NoProviderUntilChosen(site: Site, events: seq<Event>, i: nat, j: nat)
    requires i < j <= |events| && NoProviderAfter(site, events, i + 1)
    requires forall k :: i < k < j ==> !ChoosesProvider(events[k])
    ensures NoProviderAfter(site, events, j)
  {
    var none := k => NoProviderAfter(site, events, k);
    forall k | i < k < j && none(k) ensures none(k + 1) {
      NoProviderStep(site, events, k);
    }
    Persists(none, i + 1, j);
  }

  /** A repeated confirmation books nothing: between two bookings of a run a provider is chosen again. */
  lemma OneBookingPerChoice(site: Site, events: seq<Event>, i: nat, j: nat)
    requires i < j < |events| && EffectAt(site, events, i).Booked? && EffectAt(site, events, j).Booked?
    ensures exists k :: i < k < j && ChoosesProvider(events[k])
  {
    if forall k :: i < k < j ==> !ChoosesProvider(events[k]) {
      StateAfterStep(site, events, i);
      BookingClearsProvider(site, StateAfter(site, START, events[..i]), events[i]);
      NoProviderUntilChosen(site, events, i, j);
      BookingNeedsProvider(site, StateAfter(site, START, events[..j]), events[j]);
      assert false;
    }
  }

  lemma BookingNeedsProvider(site: Site, s: State, e: Event)
    requires Next(site, s, e).effect.Booked?
    ensures s.provider.Some?
  {
    if e.Said? && s.provider.None? {
      NoProviderNoBooking(site, e.world, s, Decode(e.message.action));
    }
  }

  // ----- The inbox ----------------------------------------------------------------------------------------

  /** One delivery: its external id, whether its sender is known and within the rate limit, and its message. */
  datatype Inbound = Inbound(id: string, known: bool, allowed: bool, message: Message, world: World)

  function Ids(batch: seq<Inbound>): set<string> {
    set i | 0 <= i < |batch| :: batch[i].id
  }

  /** The deliveries whose id was not seen before. */
  function Fresh(batch: seq<Inbound>, seen: set<string>): seq<Inbound> {
    if |batch| == 0 then []
    else
      var front, last := batch[..|batch| - 1], batch[|batch| - 1];
      Fresh(front, seen) + if last.id in seen || last.id in Ids(front) then [] else [last]
  }

  /** The messages among them that reach the conversation. */
  function Routed(unseen: seq<Inbound>): seq<Event> {
    if |unseen| == 0 then []
    else
      var last := unseen[|unseen| - 1];
      Routed(unseen[..|unseen| - 1]) + if last.known && last.allowed then [Said(last.message, last.world)] else []
  }

  lemma RoutedAppend(unseen: seq<Inbound>, m: Inbound)
    ensures Routed(unseen + [m]) == Routed(unseen) + if m.known && m.allowed then [Said(m.message, m.world)] else []
  {
    assert (unseen + [m])[..|unseen|] == unseen;
  }

  lemma StateAfterAppend(site: Site, s: State, events: seq<Event>, e: Event)
    ensures StateAfter(site, s, events + [e]) == Next(site, StateAfter(site, s, events), e).state
  {
    assert (events + [e])[..|events|] == events;
  }

  /** A batch delivered in two parts is the batch. */
  lemma {:induction false} FreshSplit(a: seq<Inbound>, b: seq<Inbound>, seen: set<string>)
    ensures Fresh(a + b, seen) == Fresh(a, seen) + Fresh(b, seen + Ids(a))
  {
    if |b| == 0 {
      assert a + b == a;
    } else {
      var front, last := b[..|b| - 1], b[|b| - 1];
      assert (a + b)[..|a + b| - 1] == a + front;
      FreshSplit(a, front, seen);
      IdsOf(a, front, last.id);
    }
  }

  lemma IdsOf(a: seq<Inbound>, b: seq<Inbound>, id: string)
    ensures id in Ids(a + b) <==> id in Ids(a) || id in Ids(b)
  {
    if i :| 0 <= i < |a| && a[i].id == id {
      assert (a + b)[i].id == id;
    }
    if i :| 0 <= i < |b| && b[i].id == id {
      assert (a + b)[|a| + i].id == id;
    }
  }

  /** Delivering a batch again routes nothing, even what the rate limit turned away the first time. */
  lemma {:induction false} RedeliveryIsIdle(batch: seq<Inbound>, seen: set<string>)
    requires forall i :: 0 <= i < |batch| ==> batch[i].id in seen
    ensures Fresh(batch, seen) == []
  {
    if |batch| > 0 {
      RedeliveryIsIdle(batch[..|batch| - 1], seen);
    }
  }

  /** One customer's deliveries: the message log's unique ids, and the conversation row. */
  class Inbox {
    const chat: Chat
    var seen: set<string>

    ghost predicate Valid()
      reads this, chat
    {
      chat.Valid()
    }

    constructor (site: Site)
      ensures Valid() && fresh(chat) && chat.site == site && chat.View() == START && seen == {}
    {
      chat := new Chat(site);
      seen := {};
    }

    /** Each message of the batch in turn; the counters say how many were new. */
    method ProcessMessages(batch: seq<Inbound>) returns (processed: nat, duplicates: nat)
      requires Valid()
      modifies this, chat
      ensures Valid() && seen == old(seen) + Ids(batch)
      ensures chat.View() == StateAfter(chat.site, old(chat.View()), Routed(Fresh(batch, old(seen))))
      ensures processed == |Fresh(batch, old(seen))| && processed + duplicates == |batch|
    {
      processed, duplicates := 0, 0;
      for n := 0 to |batch|
        invariant Valid() && seen == old(seen) + Ids(batch[..n])
        invariant chat.View() == StateAfter(chat.site, old(chat.View()), Routed(Fresh(batch[..n], old(seen))))
        invariant processed == |Fresh(batch[..n], old(seen))| && processed + duplicates == n
      {
        InboxStep(chat.site, old(chat.View()), batch, n, old(seen));
        var isNew := Deliver(batch[n]);
        if isNew {
          processed := processed + 1;
        } else {
          duplicates := duplicates + 1;
        }
      }
      assert batch[..|batch|] == batch;
    }

    /** One delivery: its id is recorded before anything else, and only a new one can reach the conversation. */
    method Deliver(m: Inbound) returns (isNew: bool)
      requires Valid()
      modifies this, chat
      ensures Valid() && seen == old(seen) + {m.id} && isNew == (m.id !in old(seen))
      ensures chat.View() == if isNew then Delivered(chat.site, old(chat.View()), m) else old(chat.View())
      ensures !m.known || !m.allowed ==> chat.View() == old(chat.View())
      ensures isNew && m.known && m.allowed ==>
                chat.View() == Answer(chat.site, m.world, old(chat.View()), m.message).state
    {
      isNew := m.id !in seen;
      if isNew {
        seen := seen + {m.id};
        if m.known && m.allowed {
          var _ := chat.RouteMessage(m.world, m.message);
        }
      }
    }
  }

  /** The conversation after a new delivery: an unknown sender or one over the limit changes nothing. */
  function Delivered(site: Site, s: State, m: Inbound): State {
    if m.known && m.allowed then Next(site, s, Said(m.message, m.world)).state else s
  }

  lemma RoutedStep(site: Site, s: State, before: seq<Inbound>, m: Inbound)
    ensures StateAfter(site, s, Routed(before + [m])) == Delivered(site, StateAfter(site, s, Routed(before)), m)
  {
    RoutedAppend(before, m);
    if m.known && m.allowed {
      StateAfterAppend(site, s, Routed(before), Said(m.message, m.world));
    } else {
      assert Routed(before) + [] == Routed(before);
    }
  }

  /** One more delivery reaches the conversation if its id is new. */
  lemma InboxStep(site: Site, s: State, batch: seq<Inbound>, n: nat, seen: set<string>)
    requires n < |batch|
    ensures Ids(batch[..n + 1]) == Ids(batch[..n]) + {batch[n].id}
    ensures var before, after, m := Fresh(batch[..n], seen), Fresh(batch[..n + 1], seen), batch[n];
            if m.id in seen + Ids(batch[..n]) then after == before
            else
              && |after| == |before| + 1
              && StateAfter(site, s, Routed(after)) == Delivered(site, StateAfter(site, s, Routed(before)), m)
  {
    FreshStep(batch, n, seen);
    var before := Fresh(batch[..n], seen);
    if batch[n].id in seen + Ids(batch[..n]) {
      assert before + [] == before;
    } else {
      RoutedStep(site, s, before, batch[n]);
    }
  }

  lemma FreshStep(batch: seq<Inbound>, n: nat, seen: set<string>)
    requires n < |batch|
    ensures Ids(batch[..n + 1]) == Ids(batch[..n]) + {batch[n].id}
    ensures Fresh(batch[..n + 1], seen)
         == Fresh(batch[..n], seen) + if batch[n].id in seen || batch[n].id in Ids(batch[..n]) then [] else [batch[n]]
  {
    assert batch[..n + 1][..n] == batch[..n] && batch[..n + 1][n] == batch[n];
    assert batch[..n + 1] == batch[..n] + [batch[n]];
    forall id ensures id in Ids(batch[..n + 1]) <==> id in Ids(batch[..n]) || id == batch[n].id {
      IdsOf(batch[..n], [batch[n]], id);
      assert [batch[n]][0] == batch[n];
    }
  }
}
