/** The keyed hash chain of audit.py. */
module Audit {
  import opened Wrappers
  import opened Json
  import opened Canonical
  import opened Sequences
  import opened Store

  /** JSON text and its parser, the digest of full arguments, and the tag under the log's key. */
  datatype Codec = Codec(dumps: Args -> string, loads: string -> Args, digest: Args -> string, tag: string -> string) {
    ghost predicate RoundTrips() {
      forall args :: loads(dumps(args)) == args
    }
  }

  // ---------- Redaction ----------

  /** Lower case as far as it can reach an ASCII letter: the Kelvin sign lowers to k. */
  function Lower(c: char): char {
    if 'A' <= c <= 'Z' then (c as int + 32) as char
    else if c == '\U{212A}' then 'k'
    else c
  }

  function LowerAll(s: string): string {
    seq(|s|, k requires 0 <= k < |s| => Lower(s[k]))
  }

  predicate Redacted(key: string) {
    LowerAll(key) in {"token", "client_secret", "body"}
  }

  function SafeArgs(args: Args): Args {
    map key | key in args :: if Redacted(key) then Value.Text("[REDACTED]") else args[key]
  }

  // ---------- Recording ----------

  datatype Entry = Entry(
    sessionId: string,
    clientId: Option<string>,
    tool: string,
    action: string,
    decision: string,
    reason: string,
    args: Args,
    subjectTeam: Option<string>)

  /** The clock reading and the rounded latency of one record. */
  datatype Stamp = Stamp(occurredAt: NumberText, latencyMs: NumberText)

  function FieldsOf(codec: Codec, entry: Entry, stamp: Stamp, previousHash: string): Fields {
    Fields(entry.sessionId, stamp.occurredAt, entry.clientId, entry.tool, entry.action, entry.decision, entry.reason,
           entry.subjectTeam, codec.dumps(SafeArgs(entry.args)), codec.digest(entry.args), stamp.latencyMs, previousHash)
  }

  function Tag(codec: Codec, fields: Fields): string {
    codec.tag(CanonicalText(fields))
  }

  function Recorded(codec: Codec, events: seq<Event>, entry: Entry, stamp: Stamp): Event {
    var fields := FieldsOf(codec, entry, stamp, LastAuditHash(events));
    Event(NextSequence(events), fields, Tag(codec, fields))
  }

  /** The letter `w` of a lower-case word, in a spelling that lowers to it. */
  ghost predicate SpellsLetter(c: char, w: char) {
    c == w || ('a' <= w <= 'z' && c as int + 32 == w as int) || (w == 'k' && c == '\U{212A}')
  }

  ghost predicate Spells(key: string, word: string) {
    |key| == |word| && forall k :: 0 <= k < |word| ==> SpellsLetter(key[k], word[k])
  }

  /** The keys whose values must not reach the log, in any case. */
  ghost predicate Sensitive(key: string) {
    Spells(key, "token") || Spells(key, "client_secret") || Spells(key, "body")
  }

  ghost predicate IsRedactionOf(kept: Args, args: Args) {
    && kept.Keys == args.Keys
    && forall key :: key in args ==> kept[key] == if Sensitive(key) then Value.Text("[REDACTED]") else args[key]
  }

  /** What the event of one record says, column by column. */
  ghost predicate Says(codec: Codec, events: seq<Event>, entry: Entry, stamp: Stamp, e: Event) {
    var f := e.fields;
    && e.sequence == (if events == [] then 1 else events[|events| - 1].sequence + 1)
    && e.eventHash == codec.tag(CanonicalText(f))
    && f.previousHash == (if events == [] then Zeros(64) else events[|events| - 1].eventHash)
    && f.sessionId == entry.sessionId && f.clientId == entry.clientId && f.tool == entry.tool
    && f.action == entry.action && f.decision == entry.decision && f.reason == entry.reason
    && f.subjectTeam == entry.subjectTeam
    && f.occurredAt == stamp.occurredAt && f.latencyMs == stamp.latencyMs
    && f.argsDigest == codec.digest(entry.args)
    && exists kept: Args :: IsRedactionOf(kept, entry.args) && f.argsJson == codec.dumps(kept)
  }

  lemma LowerSpells(c: char, w: char)
    requires 'a' <= w <= 'z' || w == '_'
    ensures Lower(c) == w <==> SpellsLetter(c, w)
  {
  }

  lemma LowerAllSpells(key: string, word: string)
    requires forall k :: 0 <= k < |word| ==> 'a' <= word[k] <= 'z' || word[k] == '_'
    ensures LowerAll(key) == word <==> Spells(key, word)
  {
    forall k | 0 <= k < |word| && |key| == |word|
      ensures LowerAll(key)[k] == word[k] <==> SpellsLetter(key[k], word[k])
    {
      LowerSpells(key[k], word[k]);
    }
    hide Lower, SpellsLetter;
  }

  lemma RedactedIsSensitive(key: string)
    ensures Redacted(key) <==> Sensitive(key)
  {
    LowerAllSpells(key, "token");
    LowerAllSpells(key, "client_secret");
    LowerAllSpells(key, "body");
    hide LowerAll, Spells;
  }

  lemma SafeArgsIsRedaction(args: Args)
    ensures IsRedactionOf(SafeArgs(args), args)
  {
    forall key
      ensures Redacted(key) <==> Sensitive(key)
    {
      RedactedIsSensitive(key);
    }
    hide Redacted, Sensitive;
  }

  lemma RecordSays(codec: Codec, events: seq<Event>, entry: Entry, stamp: Stamp)
    ensures Says(codec, events, entry, stamp, Recorded(codec, events, entry, stamp))
  {
    SafeArgsIsRedaction(entry.args);
    hide SafeArgs, IsRedactionOf, CanonicalText;
  }

  lemma RedactionIsUnique(x: Args, y: Args, args: Args)
    requires IsRedactionOf(x, args) && IsRedactionOf(y, args)
    ensures x == y
  {
    hide Sensitive;
  }

  /** What is read back from an event is the redaction of the arguments recorded. */
  lemma ReadsBackRedacted(codec: Codec, events: seq<Event>, entry: Entry, stamp: Stamp, e: Event)
    requires codec.RoundTrips() && Says(codec, events, entry, stamp, e)
    ensures IsRedactionOf(codec.loads(e.fields.argsJson), entry.args)
  {
    hide IsRedactionOf, CanonicalText;
    var kept: Args :| IsRedactionOf(kept, entry.args) && e.fields.argsJson == codec.dumps(kept);
    assert codec.loads(codec.dumps(kept)) == kept;
  }

  /** Arguments that differ only in sensitive values leave the same text in the log. */
  lemma SensitiveValuesLeaveNoTrace(codec: Codec, events: seq<Event>, entry: Entry, stamp: Stamp, e: Event,
                                    events': seq<Event>, entry': Entry, stamp': Stamp, e': Event)
    requires Says(codec, events, entry, stamp, e) && Says(codec, events', entry', stamp', e')
    requires entry.args.Keys == entry'.args.Keys
    requires forall key :: key in entry.args && !Sensitive(key) ==> entry.args[key] == entry'.args[key]
    ensures e.fields.argsJson == e'.fields.argsJson
  {
    var kept: Args :| IsRedactionOf(kept, entry.args) && e.fields.argsJson == codec.dumps(kept);
    var kept': Args :| IsRedactionOf(kept', entry'.args) && e'.fields.argsJson == codec.dumps(kept');
    hide Sensitive, CanonicalText, Says;
    assert IsRedactionOf(kept', entry.args);
    RedactionIsUnique(kept, kept', entry.args);
  }

  // ---------- Verification ----------

  const WINDOW := 1_000_000
  const SESSION_WINDOW := 10_000

  function PreviousTag(events: seq<Event>, k: nat): string
    requires k < |events|
  {
    if k == 0 then GENESIS else events[k - 1].eventHash
  }

  ghost predicate Linked(codec: Codec, events: seq<Event>, k: nat)
    requires k < |events|
  {
    events[k].fields.previousHash == PreviousTag(events, k) && events[k].eventHash == Tag(codec, events[k].fields)
  }

  /** Every event carries its own tag and names its predecessor's, from the all-zero genesis on. */
  ghost predicate WellChained(codec: Codec, events: seq<Event>) {
    forall k :: 0 <= k < |events| ==> Linked(codec, events, k)
  }

  /** What the verifier reads: at most the newest WINDOW events, oldest first. */
  function Window(events: seq<Event>): seq<Event> {
    Reverse(AuditEvents(events, "", WINDOW, None))
  }

  ghost predicate Accepted(codec: Codec, events: seq<Event>) {
    WellChained(codec, Window(events))
  }

  datatype Reconstructed = Reconstructed(
    sequence: int,
    tool: string,
    action: string,
    decision: string,
    reason: string,
    args: Args)

  function Summary(codec: Codec, e: Event): Reconstructed {
    var f := e.fields;
    Reconstructed(e.sequence, f.tool, f.action, f.decision, f.reason, codec.loads(f.argsJson))
  }

  ghost predicate Retells(codec: Codec, e: Event, row: Reconstructed) {
    && row.sequence == e.sequence && row.tool == e.fields.tool && row.action == e.fields.action
    && row.decision == e.fields.decision && row.reason == e.fields.reason
    && row.args == codec.loads(e.fields.argsJson)
  }

  class AuditLog {
    const store: Store
    const codec: Codec

    constructor (store: Store, codec: Codec)
      ensures this.store == store && this.codec == codec
    {
      this.store := store;
      this.codec := codec;
    }

    method Record(entry: Entry, stamp: Stamp) returns (row: Event)
      modifies store`events
      ensures row == Recorded(codec, old(store.events), entry, stamp)
      ensures store.events == old(store.events) + [row]
      ensures Says(codec, old(store.events), entry, stamp, row)
    {
      RecordSays(codec, store.events, entry, stamp);
      hide Says, CanonicalText;
      var previousHash := LastAuditHash(store.events);
      var fields := FieldsOf(codec, entry, stamp, previousHash);
      var eventHash := codec.tag(CanonicalText(fields));
      row := store.AppendAudit(fields, eventHash);
    }

    method VerifyChain() returns (accepted: bool)
      ensures accepted <==> Accepted(codec, store.events)
    {
      hide CanonicalText, Tag;
      hide AuditEvents, Reverse;
      var newestFirst := store.ReadAudit("", WINDOW, None);
      var events := Reverse(newestFirst);
      var previousHash := GENESIS;
      var k := 0;
      while k < |events|
        invariant 0 <= k <= |events|
        invariant previousHash == if k == 0 then GENESIS else events[k - 1].eventHash
        invariant forall j :: 0 <= j < k ==> Linked(codec, events, j)
      {
        var event := events[k];
        if event.fields.previousHash != previousHash {
          assert !Linked(codec, events, k);
          return false;
        }
        var expected := Tag(codec, event.fields);
        if expected != event.eventHash {
          assert !Linked(codec, events, k);
          return false;
        }
        previousHash := event.eventHash;
        k := k + 1;
      }
      return true;
    }

    method Reconstruct(session: string) returns (rows: seq<Reconstructed>)
      ensures var events := AuditEvents(store.events, session, SESSION_WINDOW, None);
              && |rows| == |events|
              && forall k :: 0 <= k < |rows| ==> Retells(codec, events[k], rows[k])
    {
      var events := store.ReadAudit(session, SESSION_WINDOW, None);
      rows := seq(|events|, k requires 0 <= k < |events| => Summary(codec, events[k]));
    }
  }

  // ---------- Chain invariant ----------

  lemma RecordKeepsChain(codec: Codec, events: seq<Event>, entry: Entry, stamp: Stamp)
    requires WellChained(codec, events)
    ensures WellChained(codec, events + [Recorded(codec, events, entry, stamp)])
  {
    hide CanonicalText, Tag;
    var longer := events + [Recorded(codec, events, entry, stamp)];
    forall k | 0 <= k < |longer|
      ensures Linked(codec, longer, k)
    {
      if k < |events| {
        assert Linked(codec, events, k);
      }
    }
  }

  /** The log after a sequence of records on an empty table. */
  function RecordAll(codec: Codec, entries: seq<(Entry, Stamp)>): seq<Event> {
    if entries == [] then []
    else
      var events := RecordAll(codec, entries[..|entries| - 1]);
      var (entry, stamp) := entries[|entries| - 1];
      events + [Recorded(codec, events, entry, stamp)]
  }

  lemma {:induction false} RecordedLogIsWellChained(codec: Codec, entries: seq<(Entry, Stamp)>)
    ensures WellChained(codec, RecordAll(codec, entries)) && |RecordAll(codec, entries)| == |entries|
  {
    if entries != [] {
      var front := entries[..|entries| - 1];
      RecordedLogIsWellChained(codec, front);
      var (entry, stamp) := entries[|entries| - 1];
      RecordKeepsChain(codec, RecordAll(codec, front), entry, stamp);
    }
  }

  // ---------- Tamper evidence ----------

  /** The tag function has no collision between the texts of these two logs. */
  ghost predicate Distinguishes(codec: Codec, xs: seq<Event>, ys: seq<Event>) {
    forall i, j :: 0 <= i < |xs| && 0 <= j < |ys| && Tag(codec, xs[i].fields) == Tag(codec, ys[j].fields) ==>
      CanonicalText(xs[i].fields) == CanonicalText(ys[j].fields)
  }

  /** The idealised MAC, asked only of the texts at hand: no collisions, and never the genesis. */
  ghost predicate IdealTags(codec: Codec, recorded: seq<Event>, candidate: seq<Event>) {
    && Distinguishes(codec, recorded, recorded)
    && Distinguishes(codec, recorded, candidate)
    && forall i :: 0 <= i < |recorded| ==> Tag(codec, recorded[i].fields) != GENESIS
  }

  /** Every tag the candidate shows is one the recorder issued. */
  ghost predicate TagsIssued(recorded: seq<Event>, candidate: seq<Event>) {
    forall k :: 0 <= k < |candidate| ==> TagIssued(recorded, candidate[k].eventHash)
  }

  ghost predicate TagIssued(recorded: seq<Event>, tag: string) {
    exists j :: 0 <= j < |recorded| && recorded[j].eventHash == tag
  }

  /** Equal to a prefix on the twelve authenticated fields and the tag; sequence numbers are free. */
  ghost predicate IsAuthenticPrefix(candidate: seq<Event>, recorded: seq<Event>) {
    && |candidate| <= |recorded|
    && forall k :: 0 <= k < |candidate| ==>
         candidate[k].fields == recorded[k].fields && candidate[k].eventHash == recorded[k].eventHash
  }

  /** Equal tags come from equal rows. */
  lemma TagDeterminesFields(codec: Codec, xs: seq<Event>, ys: seq<Event>, i: nat, j: nat)
    requires i < |xs| && j < |ys| && Distinguishes(codec, xs, ys)
    requires xs[i].eventHash == Tag(codec, xs[i].fields) && ys[j].eventHash == Tag(codec, ys[j].fields)
    ensures xs[i].eventHash == ys[j].eventHash ==> xs[i].fields == ys[j].fields
  {
    hide CanonicalText, Tag;
    if xs[i].eventHash == ys[j].eventHash {
      CanonicalTextIsInjective(xs[i].fields, ys[j].fields);
    }
  }

  /** The chain is acyclic: equal tags would lead back, step by step, to a tag equal to the genesis. */
  lemma {:induction false} TagsAreDistinct(codec: Codec, events: seq<Event>, i: nat, j: nat)
    requires i < j < |events| && WellChained(codec, events) && IdealTags(codec, events, events)
    ensures events[i].eventHash != events[j].eventHash
  {
    hide CanonicalText, Tag, Distinguishes;
    assert Linked(codec, events, i) && Linked(codec, events, j) && Linked(codec, events, j - 1);
    if events[i].eventHash == events[j].eventHash {
      TagDeterminesFields(codec, events, events, i, j);
      assert PreviousTag(events, i) == PreviousTag(events, j) == events[j - 1].eventHash;
      if i > 0 {
        TagsAreDistinct(codec, events, i - 1, j - 1);
      }
    }
  }

  /** An accepted event with an issued tag stands where the recorder put it. */
  lemma {:induction false} AcceptedEventIsInPlace(codec: Codec, recorded: seq<Event>, candidate: seq<Event>, k: nat)
    requires WellChained(codec, recorded) && WellChained(codec, candidate)
    requires IdealTags(codec, recorded, candidate) && TagsIssued(recorded, candidate)
    requires k < |candidate|
    ensures k < |recorded|
    ensures candidate[k].fields == recorded[k].fields && candidate[k].eventHash == recorded[k].eventHash
  {
    hide CanonicalText, Tag, Distinguishes;
    assert TagIssued(recorded, candidate[k].eventHash);
    var j :| 0 <= j < |recorded| && recorded[j].eventHash == candidate[k].eventHash;
    assert Linked(codec, recorded, j) && Linked(codec, candidate, k);
    TagDeterminesFields(codec, recorded, candidate, j, k);
    assert PreviousTag(recorded, j) == PreviousTag(candidate, k);
    assert j > 0 ==> Linked(codec, recorded, j - 1);
    if k > 0 {
      AcceptedEventIsInPlace(codec, recorded, candidate, k - 1);
      assert Linked(codec, recorded, k - 1);
      assert PreviousTag(recorded, j) == recorded[k - 1].eventHash;
      if 0 < j < k {
        TagsAreDistinct(codec, recorded, j - 1, k - 1);
      } else if k < j {
        TagsAreDistinct(codec, recorded, k - 1, j - 1);
      }
    }
  }

  lemma AuthenticPrefixIsWellChained(codec: Codec, recorded: seq<Event>, candidate: seq<Event>)
    requires WellChained(codec, recorded) && IsAuthenticPrefix(candidate, recorded)
    ensures WellChained(codec, candidate)
  {
    hide CanonicalText, Tag;
    forall k | 0 <= k < |candidate|
      ensures Linked(codec, candidate, k)
    {
      assert Linked(codec, recorded, k);
    }
  }

  /** The window is the whole log up to WINDOW events, and its newest WINDOW events after that. */
  lemma WindowIsTail(events: seq<Event>)
    ensures Window(events) == if |events| <= WINDOW then events else events[|events| - WINDOW..]
  {
    FilterEverything(events);
    hide Filter;
  }

  lemma {:induction false} FilterEverything(events: seq<Event>)
    ensures Filter(events, Where("", None)) == events
  {
    assert forall e :: Where("", None)(e);
    hide Where;
    if events != [] {
      FilterEverything(events[..|events| - 1]);
      assert events == events[..|events| - 1] + [events[|events| - 1]];
    }
  }

  /**
    Tamper evidence: among candidates that show only issued tags, the verifier accepts exactly those
    whose window is a prefix of what was recorded, on every authenticated field.
   */
  lemma AcceptedExactlyAuthenticPrefixes(codec: Codec, recorded: seq<Event>, candidate: seq<Event>)
    requires WellChained(codec, recorded) && TagsIssued(recorded, candidate)
    requires IdealTags(codec, recorded, candidate)
    ensures Accepted(codec, candidate) <==> IsAuthenticPrefix(Window(candidate), recorded)
    ensures |candidate| <= WINDOW ==> Window(candidate) == candidate
  {
    hide CanonicalText, Tag;
    WindowIsTail(candidate);
    hide Window;
    var window := Window(candidate);
    assert TagsIssued(recorded, window) by {
      forall k | 0 <= k < |window|
        ensures TagIssued(recorded, window[k].eventHash)
      {
        assert window[k] == candidate[k + |candidate| - |window|];
      }
    }
    assert IdealTags(codec, recorded, window) by {
      IdealTagsOfTail(codec, recorded, candidate, |candidate| - |window|);
    }
    if Accepted(codec, candidate) {
      if window != [] {
        AcceptedEventIsInPlace(codec, recorded, window, |window| - 1);
      }
      forall k | 0 <= k < |window|
        ensures window[k].fields == recorded[k].fields && window[k].eventHash == recorded[k].eventHash
      {
        AcceptedEventIsInPlace(codec, recorded, window, k);
      }
    }
    if IsAuthenticPrefix(window, recorded) {
      AuthenticPrefixIsWellChained(codec, recorded, window);
    }
  }

  lemma IdealTagsOfTail(codec: Codec, recorded: seq<Event>, candidate: seq<Event>, from: nat)
    requires from <= |candidate| && IdealTags(codec, recorded, candidate)
    ensures IdealTags(codec, recorded, candidate[from..])
  {
    hide CanonicalText, Tag;
    forall i, j | 0 <= i < |recorded| && 0 <= j < |candidate[from..]| &&
                  Tag(codec, recorded[i].fields) == Tag(codec, candidate[from..][j].fields)
      ensures CanonicalText(recorded[i].fields) == CanonicalText(candidate[from..][j].fields)
    {
      assert candidate[from..][j] == candidate[from + j];
    }
  }

  /** A genuine log is accepted exactly while it fits the verifier's window. */
  lemma GenuineLogAcceptedWithinWindow(codec: Codec, recorded: seq<Event>)
    requires WellChained(codec, recorded) && IdealTags(codec, recorded, recorded)
    ensures Accepted(codec, recorded) <==> |recorded| <= 1_000_000
  {
    hide CanonicalText, Tag;
    WindowIsTail(recorded);
    if |recorded| > WINDOW {
      var first := |recorded| - WINDOW;
      assert Linked(codec, recorded, first) && Linked(codec, recorded, first - 1);
      assert !Linked(codec, Window(recorded), 0);
    }
  }

  /**
    The window is also the limit of the guarantee: an accepted candidate is a prefix of what was recorded
    exactly while it fits the verifier's window.
   */
  lemma AcceptedIsPrefixExactlyWithinWindow(codec: Codec, recorded: seq<Event>, candidate: seq<Event>)
    requires WellChained(codec, recorded) && TagsIssued(recorded, candidate)
    requires IdealTags(codec, recorded, candidate) && Accepted(codec, candidate)
    ensures IsAuthenticPrefix(candidate, recorded) <==> |candidate| <= 1_000_000
  {
    AcceptedExactlyAuthenticPrefixes(codec, recorded, candidate);
    hide CanonicalText, Tag, WellChained, TagsIssued, Accepted;
    if |candidate| > WINDOW && IsAuthenticPrefix(candidate, recorded) {
      WindowIsTail(candidate);
      hide Window;
      var dropped := |candidate| - WINDOW;
      assert Window(candidate)[0] == candidate[dropped];
      assert recorded[dropped].eventHash == recorded[0].eventHash;
      TagsAreDistinct(codec, recorded, 0, dropped);
    }
  }

  /** A log's first WINDOW events behind a replay of its first event, numbered before it. */
  function Replayed(recorded: seq<Event>): seq<Event>
    requires |recorded| >= WINDOW
  {
    [recorded[0].(sequence := recorded[0].sequence - 1)] + recorded[..WINDOW]
  }

  lemma ReplayedShape(recorded: seq<Event>)
    requires |recorded| >= WINDOW && Ordered(recorded)
    ensures Ordered(Replayed(recorded)) && TagsIssued(recorded, Replayed(recorded))
  {
    var candidate := Replayed(recorded);
    forall k | 0 <= k < |candidate|
      ensures TagIssued(recorded, candidate[k].eventHash)
    {
      assert recorded[if k == 0 then 0 else k - 1].eventHash == candidate[k].eventHash;
    }
  }

  lemma ReplayedIsAccepted(codec: Codec, recorded: seq<Event>)
    requires |recorded| >= WINDOW && WellChained(codec, recorded)
    ensures Accepted(codec, Replayed(recorded))
  {
    WindowIsTail(Replayed(recorded));
    FrontIsWellChained(codec, recorded, WINDOW);
    hide WellChained, Window;
    assert Replayed(recorded)[1..] == recorded[..WINDOW];
  }

  /**
    Past the window the guarantee does fail: every log of at least WINDOW events has an accepted candidate, in
    sequence order and with issued tags only, that is no prefix of it.
   */
  lemma OversizedCandidateEscapes(codec: Codec, recorded: seq<Event>)
    requires |recorded| >= WINDOW && Ordered(recorded)
    requires WellChained(codec, recorded) && IdealTags(codec, recorded, recorded)
    ensures var candidate := Replayed(recorded);
            && Ordered(candidate) && TagsIssued(recorded, candidate)
            && Accepted(codec, candidate)
            && !IsAuthenticPrefix(candidate, recorded)
  {
    ReplayedShape(recorded);
    ReplayedIsAccepted(codec, recorded);
    hide Ordered, TagsIssued, Accepted, WellChained, IdealTags;
    assert Replayed(recorded)[1] == recorded[0];
    TagsAreDistinct(codec, recorded, 0, 1);
  }

  lemma FrontIsWellChained(codec: Codec, recorded: seq<Event>, n: nat)
    requires WellChained(codec, recorded) && n <= |recorded|
    ensures WellChained(codec, recorded[..n])
  {
    AuthenticPrefixIsWellChained(codec, recorded, recorded[..n]);
  }

  // ---------- Sessions ----------

  function BySession(session: string): Event -> bool {
    (e: Event) => e.fields.sessionId == session
  }

  function SessionEvents(events: seq<Event>, session: string): seq<Event> {
    Filter(events, BySession(session))
  }

  ghost predicate SessionsFit(events: seq<Event>) {
    && (forall e: Event :: e in events ==> e.fields.sessionId != "")
    && (forall session: string :: |SessionEvents(events, session)| <= SESSION_WINDOW)
  }

  /** A session that fits the reconstruction window is returned whole and in order. */
  lemma SessionReadIsWhole(events: seq<Event>, session: string)
    requires session != "" && |SessionEvents(events, session)| <= 10_000
    ensures AuditEvents(events, session, SESSION_WINDOW, None) == SessionEvents(events, session)
  {
    FilterAgree(events, Where(session, None), BySession(session));
  }

  /** In a strictly ordered list the last event outranks the others and occurs once. */
  lemma LastIsGreatest(xs: seq<Event>)
    requires Ordered(xs) && xs != []
    ensures forall e :: e in xs ==> e == xs[|xs| - 1] || e.sequence < xs[|xs| - 1].sequence
    ensures forall e :: e in xs[..|xs| - 1] <==> e in xs && e != xs[|xs| - 1]
  {
    var front, last := xs[..|xs| - 1], xs[|xs| - 1];
    assert forall k :: 0 <= k < |front| ==> front[k].sequence < last.sequence;
    assert xs == front + [last];
  }

  ghost predicate SameMembers(xs: seq<Event>, ys: seq<Event>) {
    forall e :: e in xs <==> e in ys
  }

  lemma SharedMember(xs: seq<Event>, ys: seq<Event>)
    requires SameMembers(xs, ys)
    ensures xs != [] ==> ys != []
  {
    if xs != [] {
      assert xs[0] in ys;
    }
  }

  lemma SameMembersSameEnd(xs: seq<Event>, ys: seq<Event>)
    requires Ordered(xs) && Ordered(ys) && SameMembers(xs, ys)
    ensures xs == [] <==> ys == []
    ensures xs != [] ==> xs[|xs| - 1] == ys[|ys| - 1] && SameMembers(xs[..|xs| - 1], ys[..|ys| - 1])
  {
    SharedMember(xs, ys);
    SharedMember(ys, xs);
    if xs != [] {
      var x, y := xs[|xs| - 1], ys[|ys| - 1];
      assert x in xs && y in ys;
      LastIsGreatest(xs);
      LastIsGreatest(ys);
      assert x in ys && y in xs;
      assert x == y;
      var xs', ys' := xs[..|xs| - 1], ys[..|ys| - 1];
      forall e
        ensures e in xs' <==> e in ys'
      {
        assert e in xs <==> e in ys;
      }
    }
  }

  /** Two strictly ordered lists with the same members are the same list. */
  lemma {:induction false} OrderedListIsUnique(xs: seq<Event>, ys: seq<Event>)
    requires Ordered(xs) && Ordered(ys) && SameMembers(xs, ys)
    ensures xs == ys
  {
    SameMembersSameEnd(xs, ys);
    hide SameMembers;
    if xs != [] {
      OrderedListIsUnique(xs[..|xs| - 1], ys[..|ys| - 1]);
      assert xs == xs[..|xs| - 1] + [xs[|xs| - 1]] && ys == ys[..|ys| - 1] + [ys[|ys| - 1]];
    }
  }

  /** The sessions partition the log, and the only ordered list holding all they return is the log itself. */
  lemma SessionsRemerge(events: seq<Event>, merged: seq<Event>)
    requires Ordered(events) && SessionsFit(events) && Ordered(merged)
    requires forall e: Event :: e in merged <==>
               exists session: string :: session != "" && e in AuditEvents(events, session, SESSION_WINDOW, None)
    ensures merged == events
    ensures forall session: string, e: Event :: session != "" ==>
              (e in AuditEvents(events, session, SESSION_WINDOW, None) <==>
               e in events && e.fields.sessionId == session)
  {
    hide AuditEvents;
    forall session: string | session != ""
      ensures AuditEvents(events, session, SESSION_WINDOW, None) == SessionEvents(events, session)
    {
      SessionReadIsWhole(events, session);
    }
    forall e: Event
      ensures e in merged <==> e in events
    {
      if e in events {
        assert e in SessionEvents(events, e.fields.sessionId);
        assert e in AuditEvents(events, e.fields.sessionId, SESSION_WINDOW, None);
      }
    }
    OrderedListIsUnique(merged, events);
  }
}
