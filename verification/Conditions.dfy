/** The Ready condition of a binding: setReadyCondition and setCondition (internal/controller/binding_reconcile.go). */
module Conditions {
  import opened Strings

  type Time = int

  datatype ConditionStatus = True | False | Unknown

  datatype Condition = Condition(
    kind: string, status: ConditionStatus, reason: string, message: string, generation: int, since: Time)

  /** What one reconcile reports. */
  datatype Observation = Observation(
    phase: string, account: string, identity: string, provider: string, policy: string,
    organisation: string, project: string, ready: bool, reason: string, message: string)

  const READY := "Ready"

  function StatusOf(obs: Observation): ConditionStatus {
    if obs.ready then True else False
  }

  function Shorten(message: string): string {
    if |message| > 1024 then message[..1024] else message
  }

  function ReadyCondition(obs: Observation, generation: int, now: Time): Condition {
    Condition(READY, StatusOf(obs), obs.reason, Shorten(obs.message), generation, now)
  }

  predicate SameReport(a: Condition, b: Condition) {
    a.status == b.status && a.reason == b.reason && a.message == b.message && a.generation == b.generation
  }

  function WithCondition(cs: seq<Condition>, neu: Condition): seq<Condition> {
    if cs == [] then [neu]
    else if cs[0].kind != neu.kind then [cs[0]] + WithCondition(cs[1..], neu)
    else if SameReport(cs[0], neu) then cs
    else [if cs[0].status == neu.status then neu.(since := cs[0].since) else neu] + cs[1..]
  }

  function WithReady(cs: seq<Condition>, obs: Option<Observation>, generation: int, now: Time): seq<Condition> {
    match obs
    case None => cs
    case Some(o) => WithCondition(cs, ReadyCondition(o, generation, now))
  }

  /** Where the first entry of the type is, or that there is none, decides what setting a condition does. */
  lemma {:induction false} WithConditionAt(cs: seq<Condition>, neu: Condition, i: nat)
    requires i <= |cs| && forall k | 0 <= k < i :: cs[k].kind != neu.kind
    ensures i == |cs| ==> WithCondition(cs, neu) == cs + [neu]
    ensures i < |cs| && cs[i].kind == neu.kind ==>
              WithCondition(cs, neu) ==
                if SameReport(cs[i], neu) then cs
                else cs[i := if cs[i].status == neu.status then neu.(since := cs[i].since) else neu]
  {
    hide SameReport;
    if i > 0 {
      WithConditionAt(cs[1..], neu, i - 1);
      assert cs == [cs[0]] + cs[1..];
    } else if i < |cs| {
      var entry := if cs[0].status == neu.status then neu.(since := cs[0].since) else neu;
      assert [entry] + cs[1..] == cs[0 := entry];
    }
  }

  /** The conditions of a status, overwritten in place. */
  class ConditionList {
    var items: seq<Condition>

    constructor (items: seq<Condition>)
      ensures this.items == items
    {
      this.items := items;
    }

    method Set(neu: Condition)
      modifies this
      ensures items == WithCondition(old(items), neu)
    {
      for i := 0 to |items|
        invariant items == old(items)
        invariant forall k | 0 <= k < i :: items[k].kind != neu.kind
      {
        if items[i].kind != neu.kind {
          continue;
        }
        WithConditionAt(items, neu, i);
        if SameReport(items[i], neu) {
          return;
        }
        var entry := neu;
        if items[i].status == neu.status {
          entry := entry.(since := items[i].since);
        }
        items := items[i := entry];
        return;
      }
      WithConditionAt(items, neu, |items|);
      items := items + [neu];
    }

    method SetReady(obs: Option<Observation>, generation: int, now: Time)
      modifies this
      ensures items == WithReady(old(items), obs, generation, now)
    {
      if obs.None? {
        return;
      }
      var o := obs.value;
      var status := False;
      if o.ready {
        status := True;
      }
      var message := o.message;
      if |message| > 1024 {
        message := message[..1024];
      }
      Set(Condition(READY, status, o.reason, message, generation, now));
    }
  }

  // ---- histories

  /** A persisted observation: what was seen, at which generation and when. */
  datatype Sighting = Sighting(seen: Observation, generation: int, at: Time)

  function Fold(cs: seq<Condition>, history: seq<Sighting>): seq<Condition> {
    if history == [] then cs
    else
      var last := history[|history| - 1];
      WithReady(Fold(cs, history[..|history| - 1]), Some(last.seen), last.generation, last.at)
  }

  function OfKind(cs: seq<Condition>, kind: string): Option<Condition> {
    if cs == [] then None else if cs[0].kind == kind then Some(cs[0]) else OfKind(cs[1..], kind)
  }

  /** The entries of every other type, in order. */
  function NotOfKind(cs: seq<Condition>, kind: string): seq<Condition> {
    if cs == [] then []
    else if cs[0].kind == kind then NotOfKind(cs[1..], kind) else [cs[0]] + NotOfKind(cs[1..], kind)
  }

  predicate OnePerKind(cs: seq<Condition>) {
    forall i, j | 0 <= i < j < |cs| :: cs[i].kind != cs[j].kind
  }

  lemma {:induction false} OnePerKindStays(cs: seq<Condition>, neu: Condition)
    requires OnePerKind(cs)
    ensures OnePerKind(WithCondition(cs, neu))
    ensures forall c | c in WithCondition(cs, neu) :: c.kind == neu.kind || c in cs
  {
    if cs != [] && cs[0].kind != neu.kind {
      OnePerKindStays(cs[1..], neu);
      var rest := WithCondition(cs[1..], neu);
      forall j | 0 <= j < |rest|
        ensures cs[0].kind != rest[j].kind
      {
        assert rest[j] in rest;
      }
    }
  }

  /** What setting a condition does to its own type and to the others; the early return makes no difference. */
  lemma {:induction false} WithConditionFacts(cs: seq<Condition>, neu: Condition)
    ensures NotOfKind(WithCondition(cs, neu), neu.kind) == NotOfKind(cs, neu.kind)
    ensures var had := OfKind(cs, neu.kind);
            OfKind(WithCondition(cs, neu), neu.kind) ==
              Some(if had.Some? && had.value.status == neu.status then neu.(since := had.value.since) else neu)
  {
    if cs != [] {
      WithConditionFacts(cs[1..], neu);
    }
  }

  /** Where the longest run of equal status at the end of a history begins. */
  function RunStart(history: seq<Sighting>): (start: nat)
    requires history != []
    ensures start < |history|
    ensures forall i | start <= i < |history| :: history[i].seen.ready == history[|history| - 1].seen.ready
    ensures start > 0 ==> history[start - 1].seen.ready != history[|history| - 1].seen.ready
  {
    var n := |history|;
    if n == 1 || history[n - 2].seen.ready != history[n - 1].seen.ready then n - 1 else RunStart(history[..n - 1])
  }

  /** The time of the last change of status, counting a Ready entry present before the history. */
  function ChangedAt(cs: seq<Condition>, history: seq<Sighting>): Time
    requires history != []
  {
    var start := RunStart(history);
    var had := OfKind(cs, READY);
    if start == 0 && had.Some? && had.value.status == StatusOf(history[0].seen) then had.value.since
    else history[start].at
  }

  /** The entry reports the sighting, with the message cut after 1024 characters. */
  predicate Reports(c: Condition, s: Sighting) {
    && c.kind == "Ready" && (s.seen.ready <==> c.status == True) && (!s.seen.ready <==> c.status == False)
    && c.reason == s.seen.reason && c.generation == s.generation
    && c.message <= s.seen.message && |c.message| == if |s.seen.message| > 1024 then 1024 else |s.seen.message|
  }

  /** After any history the Ready entry tells the last observation and the time its status began;
      entries of other types are as they were, and no type gets a second entry. */
  lemma {:induction false} TransitionTime(cs: seq<Condition>, history: seq<Sighting>)
    requires history != []
    ensures var last := history[|history| - 1];
            OfKind(Fold(cs, history), READY) ==
              Some(ReadyCondition(last.seen, last.generation, ChangedAt(cs, history)))
    ensures var entry := OfKind(Fold(cs, history), READY);
            entry.Some? && Reports(entry.value, history[|history| - 1]) && entry.value.since == ChangedAt(cs, history)
    ensures NotOfKind(Fold(cs, history), READY) == NotOfKind(cs, READY)
    ensures OnePerKind(cs) ==> OnePerKind(Fold(cs, history))
  {
    var n := |history|;
    var before, last := history[..n - 1], history[n - 1];
    var neu := ReadyCondition(last.seen, last.generation, last.at);
    if n > 1 {
      TransitionTime(cs, before);
    }
    WithConditionFacts(Fold(cs, before), neu);
    if OnePerKind(cs) {
      OnePerKindStays(Fold(cs, before), neu);
    }
  }
}
