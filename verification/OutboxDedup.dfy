/**
 * Writing events to the outbox: the key that makes re-deliveries collapse, and what
 * the unique index on it keeps and drops.
 */
module OutboxDedup {
  import opened Common

  datatype Target = OnConversation | OnContact

  datatype Kind =
    | TagAdded(added: string, addedTo: Target)
    | TagRemoved(removed: string, removedFrom: Target)
    | MessageReceived(message: string)
    | StatusChanged
    | Assigned

  datatype Event = Event(organization: string, contact: string, conversation: string, kind: Kind)

  /** The caller may give a key of its own, or say that there is none. */
  datatype KeyChoice = Derived | Given(key: Option<string>)

  datatype Row = Row(event: Event, key: Option<string>, depth: nat)

  datatype Error = NoOrganization | NoContact

  // --------------------------------------------------------------------- keys

  function TargetName(t: Target): string {
    if t.OnConversation? then "conversation" else "contact"
  }

  function Entity(e: Event, t: Target): string {
    if t.OnConversation? then e.conversation else e.contact
  }

  /** What tells one occurrence from another; nothing for kinds that are never collapsed. */
  function Parts(e: Event): seq<string> {
    match e.kind
    case TagAdded(tag, t) => ["TAG_ADDED", TargetName(t), Entity(e, t), tag]
    case TagRemoved(tag, t) => ["TAG_REMOVED", TargetName(t), Entity(e, t), tag]
    case MessageReceived(m) => ["MESSAGE_RECEIVED", m]
    case StatusChanged => []
    case Assigned => []
  }

  function WithColons(parts: seq<string>): string {
    if parts == [] then ""
    else if |parts| == 1 then parts[0]
    else parts[0] + ":" + WithColons(parts[1..])
  }

  function DeriveDedupKey(e: Event): Option<string> {
    if Parts(e) == [] then None else Some(WithColons(Parts(e)))
  }

  predicate Plain(parts: seq<string>) {
    forall p :: p in parts ==> ':' !in p
  }

  lemma FirstPart(parts: seq<string>)
    requires |parts| > 1 && ':' !in parts[0]
    ensures var text := WithColons(parts); var n := |parts[0]|;
      && n < |text| && text[n] == ':' && text[..n] == parts[0] && text[n + 1..] == WithColons(parts[1..])
      && forall i :: 0 <= i < n ==> text[i] != ':'
  {
    var text := WithColons(parts);
    assert forall i :: 0 <= i < |parts[0]| ==> text[i] == parts[0][i];
  }

  /** Parts without colons can be read back from the key. */
  lemma {:induction false} KeysAreReadable(a: seq<string>, b: seq<string>)
    requires a != [] && b != [] && Plain(a) && Plain(b)
    ensures WithColons(a) == WithColons(b) <==> a == b
    decreases |a|
  {
    if |a| > 1 && |b| > 1 {
      FirstPart(a);
      FirstPart(b);
      KeysAreReadable(a[1..], b[1..]);
      assert a == [a[0]] + a[1..] && b == [b[0]] + b[1..];
    } else if |a| > 1 {
      FirstPart(a);
      assert ':' !in b[0];
    } else if |b| > 1 {
      FirstPart(b);
      assert ':' !in a[0];
    }
  }

  /** The keys as they are stored. */
  lemma KeyTexts(e: Event)
    ensures var key := DeriveDedupKey(e);
      match e.kind
      case TagAdded(tag, OnConversation) => key == Some("TAG_ADDED" + ":conversation:" + e.conversation + ":" + tag)
      case TagAdded(tag, OnContact) => key == Some("TAG_ADDED" + ":contact:" + e.contact + ":" + tag)
      case TagRemoved(tag, OnConversation) => key == Some("TAG_REMOVED" + ":conversation:" + e.conversation + ":" + tag)
      case TagRemoved(tag, OnContact) => key == Some("TAG_REMOVED" + ":contact:" + e.contact + ":" + tag)
      case MessageReceived(m) => key == Some("MESSAGE_RECEIVED" + ":" + m)
      case StatusChanged => key == None
      case Assigned => key == None
  {
    match e.kind
    case TagAdded(tag, t) => TagKeyText("TAG_ADDED", e, t, tag);
    case TagRemoved(tag, t) => TagKeyText("TAG_REMOVED", e, t, tag);
    case MessageReceived(m) =>
      assert Parts(e)[1..] == [m];
      assert WithColons([m]) == m;
    case StatusChanged =>
    case Assigned =>
  }

  lemma TagKeyText(trigger: string, e: Event, t: Target, tag: string)
    ensures WithColons([trigger, TargetName(t), Entity(e, t), tag]) ==
      if t.OnConversation? then trigger + ":conversation:" + e.conversation + ":" + tag
      else trigger + ":contact:" + e.contact + ":" + tag
  {
    var a, b, c, d := trigger, TargetName(t), Entity(e, t), tag;
    assert [a, b, c, d][1..] == [b, c, d] && [b, c, d][1..] == [c, d] && [c, d][1..] == [d];
    assert WithColons([c, d]) == c + ":" + d;
    assert WithColons([b, c, d]) == b + ":" + (c + ":" + d);
    if t.OnConversation? {
      assert ":conversation:" == ":" + "conversation" + ":";
      Regroup(a, "conversation", ":conversation:", c, d);
    } else {
      assert ":contact:" == ":" + "contact" + ":";
      Regroup(a, "contact", ":contact:", c, d);
    }
  }

  lemma Regroup(a: string, b: string, colons: string, c: string, d: string)
    requires colons == ":" + b + ":"
    ensures a + ":" + (b + ":" + (c + ":" + d)) == a + colons + c + ":" + d
  {
  }

  predicate SameTarget(e: Event, t: Target, f: Event, u: Target) {
    t == u && Entity(e, t) == Entity(f, u)
  }

  /** The same tag put on or taken off the same thing, or the same message. */
  predicate SameOccurrence(e: Event, f: Event) {
    match (e.kind, f.kind)
    case (TagAdded(a, t), TagAdded(b, u)) => a == b && SameTarget(e, t, f, u)
    case (TagRemoved(a, t), TagRemoved(b, u)) => a == b && SameTarget(e, t, f, u)
    case (MessageReceived(a), MessageReceived(b)) => a == b
    case _ => false
  }

  /** Ids have no colons, so two events get one key exactly when they are the same occurrence. */
  lemma SameKeyIff(e: Event, f: Event)
    requires Plain(Parts(e)) && Plain(Parts(f))
    ensures DeriveDedupKey(e).Some? && DeriveDedupKey(e) == DeriveDedupKey(f) <==> SameOccurrence(e, f)
  {
    var a, b := Parts(e), Parts(f);
    if a != [] && b != [] {
      KeysAreReadable(a, b);
      SamePartsIff(e, f);
    }
  }

  lemma SamePartsIff(e: Event, f: Event)
    ensures Parts(e) != [] && Parts(e) == Parts(f) <==> SameOccurrence(e, f)
  {
    var a, b := Parts(e), Parts(f);
    if |a| == 4 && |b| == 4 {
      assert a == b <==> a[0] == b[0] && a[1] == b[1] && a[2] == b[2] && a[3] == b[3];
      assert "TAG_ADDED"[4] == 'A' && "TAG_REMOVED"[4] == 'R';
      assert |"conversation"| == 12 && |"contact"| == 7;
    } else if |a| == 2 && |b| == 2 {
      assert a == b <==> a[0] == b[0] && a[1] == b[1];
    }
  }

  // -------------------------------------------------------------------- table

  function KeyFor(e: Event, choice: KeyChoice): Option<string> {
    if choice.Given? then choice.key else DeriveDedupKey(e)
  }

  predicate Taken(rows: seq<Row>, key: Option<string>) {
    key.Some? && exists i :: 0 <= i < |rows| && rows[i].key == key
  }

  datatype Call = Call(event: Event, choice: KeyChoice, depth: nat)

  function Next(rows: seq<Row>, c: Call): seq<Row> {
    if c.event.organization == "" || c.event.contact == "" || Taken(rows, KeyFor(c.event, c.choice)) then rows
    else rows + [Row(c.event, KeyFor(c.event, c.choice), c.depth)]
  }

  function Run(rows: seq<Row>, calls: seq<Call>): seq<Row>
    decreases |calls|
  {
    if calls == [] then rows else Run(Next(rows, calls[0]), calls[1..])
  }

  /** No key is used twice; rows without a key are not compared. */
  ghost predicate Unique(rows: seq<Row>) {
    forall i, j :: 0 <= i < j < |rows| && rows[i].key.Some? ==> rows[i].key != rows[j].key
  }

  /** Over any run of writes keys stay unique and rows already there stay as they are. */
  lemma {:induction false} RunKeepsUnique(rows: seq<Row>, calls: seq<Call>)
    requires Unique(rows)
    ensures Unique(Run(rows, calls)) && rows <= Run(rows, calls)
    decreases |calls|
  {
    if calls != [] { RunKeepsUnique(Next(rows, calls[0]), calls[1..]); }
  }

  /** The row a call asks for: its event, its depth, and the key given with it or else the derived one. */
  predicate RowOf(row: Row, c: Call) {
    && row.event == c.event && row.depth == c.depth
    && match c.choice case Given(key) => row.key == key case Derived => row.key == DeriveDedupKey(c.event)
  }

  lemma {:induction false} RunSnoc(rows: seq<Row>, calls: seq<Call>, last: Call)
    ensures Run(rows, calls + [last]) == Next(Run(rows, calls), last)
    decreases |calls|
  {
    if calls == [] {
      assert [last][1..] == [] && [] + [last] == [last];
    } else {
      RunSnoc(Next(rows, calls[0]), calls[1..], last);
      assert (calls + [last])[1..] == calls[1..] + [last];
    }
  }

  /** Row `i` is the one call `at[i]` asked for, in the order of the calls. */
  ghost predicate AreOf(rows: seq<Row>, calls: seq<Call>, at: seq<nat>) {
    && |at| == |rows|
    && (forall i :: 0 <= i < |at| ==> at[i] < |calls| && RowOf(rows[i], calls[at[i]]))
    && forall i, j :: 0 <= i < j < |at| ==> at[i] < at[j]
  }

  /** Every stored row was asked for by a call of its own, in order. */
  lemma {:induction false} StoredRowsAreCalls(calls: seq<Call>) returns (at: seq<nat>)
    ensures AreOf(Run([], calls), calls, at)
    decreases |calls|
  {
    at := [];
    if calls != [] {
      var front, last := calls[..|calls| - 1], calls[|calls| - 1];
      at := StoredRowsAreCalls(front);
      RunSnoc([], front, last);
      assert front + [last] == calls;
      if Next(Run([], front), last) != Run([], front) { at := at + [|front|]; }
    }
  }

  /**
   * Once an occurrence is recorded, the same one is dropped for good, whatever is written in between:
   * a tag that is taken off and put on again fires its automations only the first time.
   */
  lemma SecondTimeIsDropped(rows: seq<Row>, e: Event, between: seq<Call>, again: Event, depth: nat)
    requires Unique(rows) && e.organization != "" && e.contact != "" && SameOccurrence(e, again)
    ensures var later := Run(Next(rows, Call(e, Derived, 0)), between);
      Next(later, Call(again, Derived, depth)) == later
  {
    var first := Next(rows, Call(e, Derived, 0));
    SamePartsIff(e, again);
    assert !Taken(rows, DeriveDedupKey(e)) ==> first[|rows|].key == DeriveDedupKey(e);
    assert Taken(first, DeriveDedupKey(e));
    var i :| 0 <= i < |first| && first[i].key == DeriveDedupKey(e);
    RunKeepsUnique(first, between);
    assert Run(first, between)[i] == first[i];
  }

  /** A call with both ids, a derived key and ids without colons. */
  predicate Ordinary(c: Call) {
    c.event.organization != "" && c.event.contact != "" && c.choice.Derived? && Plain(Parts(c.event))
  }

  ghost predicate DerivedRows(rows: seq<Row>) {
    forall i :: 0 <= i < |rows| ==> rows[i].key == DeriveDedupKey(rows[i].event) && Plain(Parts(rows[i].event))
  }

  /** A row reports this occurrence. */
  ghost predicate Recorded(rows: seq<Row>, e: Event) {
    exists i :: 0 <= i < |rows| && SameOccurrence(rows[i].event, e)
  }

  lemma TakenIffRecorded(rows: seq<Row>, e: Event)
    requires DerivedRows(rows) && Plain(Parts(e))
    ensures Taken(rows, DeriveDedupKey(e)) <==> Recorded(rows, e)
  {
    forall i | 0 <= i < |rows|
      ensures SameOccurrence(rows[i].event, e) <==> rows[i].key.Some? && rows[i].key == DeriveDedupKey(e)
    {
      SameKeyIff(rows[i].event, e);
    }
  }

  /** A call leaves its occurrence on record, whether it is written or dropped, and no other. */
  lemma RecordedNext(rows: seq<Row>, c: Call, e: Event)
    requires DerivedRows(rows) && Ordinary(c)
    ensures DerivedRows(Next(rows, c))
    ensures Recorded(Next(rows, c), e) <==> Recorded(rows, e) || SameOccurrence(c.event, e)
  {
    var key := DeriveDedupKey(c.event);
    TakenIffRecorded(rows, c.event);
    if Taken(rows, key) {
      var i :| 0 <= i < |rows| && SameOccurrence(rows[i].event, c.event);
      assert SameOccurrence(c.event, e) ==> SameOccurrence(rows[i].event, e);
    } else {
      var next := rows + [Row(c.event, key, c.depth)];
      assert next[|rows|].event == c.event;
      assert forall i :: 0 <= i < |rows| ==> next[i] == rows[i];
    }
  }

  ghost predicate Reported(calls: seq<Call>, e: Event) {
    exists i :: 0 <= i < |calls| && SameOccurrence(calls[i].event, e)
  }

  lemma {:induction false} RecordedIffReported(rows: seq<Row>, calls: seq<Call>, e: Event)
    requires DerivedRows(rows) && forall c :: c in calls ==> Ordinary(c)
    ensures DerivedRows(Run(rows, calls))
    ensures Recorded(Run(rows, calls), e) <==> Recorded(rows, e) || Reported(calls, e)
    decreases |calls|
  {
    if calls != [] {
      RecordedNext(rows, calls[0], e);
      RecordedIffReported(Next(rows, calls[0]), calls[1..], e);
      assert forall i :: 1 <= i < |calls| ==> calls[i] == calls[1..][i - 1];
    }
  }

  /** After any run of ordinary calls, the next one is dropped exactly when its occurrence was reported before. */
  lemma DroppedIffReported(calls: seq<Call>, c: Call)
    requires Ordinary(c) && forall x :: x in calls ==> Ordinary(x)
    ensures var rows := Run([], calls);
      && (Next(rows, c) == rows <==> Recorded(rows, c.event))
      && (Next(rows, c) == rows <==> Reported(calls, c.event))
  {
    var rows := Run([], calls);
    RecordedIffReported([], calls, c.event);
    TakenIffRecorded(rows, c.event);
    assert Next(rows, c) == rows || |Next(rows, c)| == |rows| + 1;
  }

  // ------------------------------------------------------------------ service

  class OutboxService {
    var rows: seq<Row>

    constructor ()
      ensures rows == []
    {
      rows := [];
    }

    /** A key that is taken is a re-delivery and silently dropped; the result says whether a row was written. */
    method Enqueue(c: Call) returns (r: Result<bool, Error>)
      modifies this
      ensures rows == Next(old(rows), c)
      ensures r == (if c.event.organization == "" then Err(NoOrganization)
                    else if c.event.contact == "" then Err(NoContact)
                    else Ok(!Taken(old(rows), KeyFor(c.event, c.choice))))
      ensures if r == Ok(true) then |rows| == |old(rows)| + 1 && old(rows) <= rows && RowOf(rows[|rows| - 1], c)
              else rows == old(rows)
    {
      if c.event.organization == "" { return Err(NoOrganization); }
      if c.event.contact == "" { return Err(NoContact); }
      var key := if c.choice.Given? then c.choice.key else DeriveDedupKey(c.event);
      if Taken(rows, key) { return Ok(false); }
      rows := rows + [Row(c.event, key, c.depth)];
      return Ok(true);
    }
  }
}
