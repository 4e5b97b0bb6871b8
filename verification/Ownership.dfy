/** Exclusive write grants, refused at encode time, and the streams of grant
    records they leave (python/griddb_ownership.py). */
module Ownership {
  import opened Lexicon
  import opened TokenParser
  import AllocDisk
  import AllocGrids

  // ----- the ledger -----

  datatype Event =
    | GrantW(holder: int, slot: int)
    | GrantR(holder: int, slot: int, offset: int)
    | Revoke(holder: int, slot: int)

  /** The live grants: at most one writer a slot, any number of pins. */
  datatype Table = Table(writers: map<int, int>, pins: map<int, set<(int, int)>>)

  const NO_GRANTS := Table(map[], map[])

  /** None when the event is refused. */
  function Apply(t: Table, e: Event): Option<Table> {
    match e
    case GrantW(h, s) => if s in t.writers then None else Some(t.(writers := t.writers[s := h]))
    case GrantR(h, s, o) =>
      Some(t.(pins := t.pins[s := (if s in t.pins then t.pins[s] else {}) + {(h, o)}]))
    case Revoke(h, s) =>
      if s !in t.writers || t.writers[s] != h then None else Some(t.(writers := t.writers - {s}))
  }

  function Replay(t: Table, events: seq<Event>): Option<Table>
    decreases |events|
  {
    if events == [] then Some(t)
    else
      var u := Apply(t, events[0]);
      if u.None? then None else Replay(u.value, events[1..])
  }

  lemma {:induction false} ReplaySnoc(t: Table, events: seq<Event>, e: Event)
    ensures Replay(t, events + [e])
         == if Replay(t, events).None? then None else Apply(Replay(t, events).value, e)
    decreases |events|
  {
    hide Apply;
    if events == [] {
      assert [e][1..] == [] && [] + [e] == [e];
    } else {
      assert (events + [e])[1..] == events[1..] + [e];
      if Apply(t, events[0]).Some? {
        ReplaySnoc(Apply(t, events[0]).value, events[1..], e);
      }
    }
  }

  /** Write grants are exclusive in any accepted log: a slot is granted again only
      after the holder itself has revoked it. */
  lemma {:induction false} RegrantAfterRevoke(t: Table, events: seq<Event>, s: int, j: nat) returns (k: nat)
    requires Replay(t, events).Some? && s in t.writers
    requires j < |events| && events[j].GrantW? && events[j].slot == s
    ensures k < j && events[k] == Revoke(t.writers[s], s)
    decreases |events|
  {
    var u := Apply(t, events[0]).value;
    if events[0] == Revoke(t.writers[s], s) {
      k := 0;
      assert j != 0;
    } else {
      assert j != 0 && s in u.writers && u.writers[s] == t.writers[s];
      k := RegrantAfterRevoke(u, events[1..], s, j - 1);
      k := k + 1;
    }
  }

  lemma {:induction false} GrantsExclusive(t: Table, events: seq<Event>, i: nat, j: nat) returns (k: nat)
    requires Replay(t, events).Some? && i < j < |events|
    requires events[i].GrantW? && events[j].GrantW? && events[i].slot == events[j].slot
    ensures i < k < j && events[k] == Revoke(events[i].holder, events[i].slot)
    decreases |events|
  {
    var u := Apply(t, events[0]).value;
    if i == 0 {
      k := RegrantAfterRevoke(u, events[1..], events[0].slot, j - 1);
      k := k + 1;
    } else {
      k := GrantsExclusive(u, events[1..], i - 1, j - 1);
      k := k + 1;
    }
  }

  // ----- grant records -----

  function CommandOf(e: Event): Token {
    match e
    case GrantR(_, _, _) => 1
    case GrantW(_, _) => 2
    case Revoke(_, _) => 3
  }

  /** A command and its argument: down four contexts, the command, up four, the number. */
  function EncodeCommand(cmd: Token, arg: int): seq<Token> {
    [START, START, START, START, cmd, END, END, END, END] + EncodeInteger(arg) + [END]
  }

  function EventTokens(e: Event): seq<Token> {
    EncodeCommand(CommandOf(e), e.holder) + EncodeInteger(e.slot)
    + (if e.GrantR? then EncodeInteger(e.offset) else []) + [RECORD]
  }

  function StreamTokens(events: seq<Event>): seq<Token> {
    if events == [] then [] else EventTokens(events[0]) + StreamTokens(events[1..])
  }

  // ----- reading them back -----

  /** Up to need numbers, skipping whatever else, stopping at a record mark or a
      command; and what is left. */
  function Numbers(xs: seq<Parsed>, need: nat, nums: seq<int>): (seq<int>, seq<Parsed>)
    decreases |xs|
  {
    if xs == [] || |nums| >= need then (nums, xs)
    else if xs[0].Number? then Numbers(xs[1..], need, nums + [xs[0].value])
    else if xs[0].Mark? || xs[0].Command? then (nums, xs)
    else Numbers(xs[1..], need, nums)
  }

  lemma {:induction false} NumbersShrinks(xs: seq<Parsed>, need: nat, nums: seq<int>)
    ensures |Numbers(xs, need, nums).1| <= |xs|
    decreases |xs|
  {
    if xs != [] && |nums| < need {
      if xs[0].Number? {
        NumbersShrinks(xs[1..], need, nums + [xs[0].value]);
      } else {
        NumbersShrinks(xs[1..], need, nums);
      }
    }
  }

  predicate IsGrant(x: Parsed) {
    x.Command? && 1 <= x.cmd <= 3
  }

  function Need(cmd: Token): nat {
    if cmd == 1 then 3 else 2
  }

  function EventOf(cmd: Token, nums: seq<int>): Event
    requires |nums| >= Need(cmd)
  {
    if cmd == 1 then GrantR(nums[0], nums[1], nums[2])
    else if cmd == 2 then GrantW(nums[0], nums[1])
    else Revoke(nums[0], nums[1])
  }

  /** None when a grant record is short of numbers. */
  function Extract(xs: seq<Parsed>): Option<seq<Event>>
    decreases |xs|
  {
    if xs == [] then Some([])
    else if !IsGrant(xs[0]) then Extract(xs[1..])
    else
      NumbersShrinks(xs[1..], Need(xs[0].cmd), []);
      var r := Numbers(xs[1..], Need(xs[0].cmd), []);
      if |r.0| < Need(xs[0].cmd) then None else Prepend(EventOf(xs[0].cmd, r.0), Extract(r.1))
  }

  function Prepend(e: Event, es: Option<seq<Event>>): Option<seq<Event>> {
    if es.None? then None else Some([e] + es.value)
  }

  function ExtractTokens(tokens: seq<Token>): Option<seq<Event>> {
    var p := FeedAll(START_STATE, tokens);
    if p.None? then None else Extract(p.value.out)
  }

  /** The guard for streams from elsewhere: the final table, or a refusal. */
  function Validate(tokens: seq<Token>): Option<Table> {
    var events := ExtractTokens(tokens);
    if events.None? then None else Replay(NO_GRANTS, events.value)
  }

  // ----- the round trip -----

  /** What the parser makes of a grant record: empty words on the way down and up. */
  function EventParsed(e: Event): seq<Parsed> {
    [Text(""), Text(""), Text(""), Command(CommandOf(e)), Text(""), Text(""), Text(""), Number(e.holder),
        Number(e.slot)]
    + (if e.GrantR? then [Number(e.offset)] else []) + [Mark]
  }

  function AtTop(out: seq<Parsed>): Parsing {
    Parsing(Num, [], out)
  }

  lemma GoesDown(ctx: Context, out: seq<Parsed>, rest: seq<Token>)
    requires ctx != Special3
    ensures FeedAll(Parsing(ctx, [], out), [START] + rest)
         == FeedAll(Parsing(Deeper(ctx), [], out + (if ctx == Num then [] else [Text("")])), rest)
  {
    var p := Parsing(ctx, [], out);
    FeedOne(p, START, rest);
    assert Chars(ctx, []) == "";
    var c := if ctx == Num then [] else [Text("")];
    assert Closing(p) == c;
    assert out + c + [] == out + c;
    assert Feed(p, START) == Some(Parsing(Deeper(ctx), [], out + c));
  }

  lemma GoesUp(ctx: Context, out: seq<Parsed>, rest: seq<Token>)
    requires ctx != Special3
    ensures FeedAll(Parsing(ctx, [], out), [END] + rest)
         == FeedAll(Parsing(Shallower(ctx), [], out + (if ctx == Num then [] else [Text("")])), rest)
  {
    var p := Parsing(ctx, [], out);
    FeedOne(p, END, rest);
    assert Chars(ctx, []) == "";
    var c := if ctx == Num then [] else [Text("")];
    assert Closing(p) == c;
    assert out + c + [] == out + c;
    assert Feed(p, END) == Some(Parsing(Shallower(ctx), [], out + c));
  }

  lemma Commands(c: Token, out: seq<Parsed>, rest: seq<Token>)
    requires IsCommand(c)
    ensures FeedAll(Parsing(Special3, [], out), [c] + ([END] + rest))
         == FeedAll(Parsing(Special2, [], out + [Command(c)]), rest)
  {
    FeedOne(Parsing(Special3, [], out), c, [END] + rest);
    var p := Parsing(Special3, [c], out);
    var none: seq<int> := [];
    assert none + [c] == [c];
    assert Feed(Parsing(Special3, [], out), c) == Some(p);
    FeedOne(p, END, rest);
    assert out + [Command(c)] + [] == out + [Command(c)];
  }

  lemma MarksRecord(out: seq<Parsed>, rest: seq<Token>)
    ensures FeedAll(AtTop(out), [RECORD] + rest) == FeedAll(AtTop(out + [Mark]), rest)
  {
    FeedOne(AtTop(out), RECORD, rest);
    assert out + [] + [Mark] == out + [Mark];
  }

  lemma FeedCommand(c: Token, arg: int, out: seq<Parsed>, rest: seq<Token>)
    requires IsCommand(c)
    ensures FeedAll(AtTop(out), EncodeCommand(c, arg) + rest)
         == FeedAll(AtTop(out + [Text(""), Text(""), Text(""), Command(c), Text(""), Text(""), Text(""), Number(arg)]),
            rest)
  {
    hide FeedAll, Feed, EncodeInteger;
    var r5 := EncodeInteger(arg) + ([END] + rest);
    var r4 := [END] + ([END] + ([END] + r5));
    var r3 := [c] + ([END] + r4);
    assert EncodeCommand(c, arg) + rest == [START] + ([START] + ([START] + ([START] + r3)));
    GoesDown(Num, out, [START] + ([START] + ([START] + r3)));
    assert out + [] == out;
    GoesDown(Word, out, [START] + ([START] + r3));
    GoesDown(Special, out + [Text("")], [START] + r3);
    GoesDown(Special2, out + [Text("")] + [Text("")], r3);
    var o1 := out + [Text("")] + [Text("")] + [Text("")];
    Commands(c, o1, r4);
    var o2 := o1 + [Command(c)];
    GoesUp(Special2, o2, [END] + ([END] + r5));
    GoesUp(Special, o2 + [Text("")], [END] + r5);
    GoesUp(Word, o2 + [Text("")] + [Text("")], r5);
    var o3 := o2 + [Text("")] + [Text("")] + [Text("")];
    FeedInteger(arg, o3, [END] + rest);
    GoesUp(Num, o3 + [Number(arg)], rest);
    assert o3 + [Number(arg)] + [] == o3 + [Number(arg)];
    assert o3 + [Number(arg)]
        == out + [Text(""), Text(""), Text(""), Command(c), Text(""), Text(""), Text(""), Number(arg)];
  }

  lemma FeedEvent(e: Event, out: seq<Parsed>, rest: seq<Token>)
    ensures FeedAll(AtTop(out), EventTokens(e) + rest) == FeedAll(AtTop(out + EventParsed(e)), rest)
  {
    hide FeedAll, Feed, EncodeInteger, EncodeCommand;
    var c := CommandOf(e);
    var tail := (if e.GrantR? then EncodeInteger(e.offset) else []) + ([RECORD] + rest);
    assert EventTokens(e) + rest == EncodeCommand(c, e.holder) + (EncodeInteger(e.slot) + tail);
    FeedCommand(c, e.holder, out, EncodeInteger(e.slot) + tail);
    var o1 := out + [Text(""), Text(""), Text(""), Command(c), Text(""), Text(""), Text(""), Number(e.holder)];
    FeedInteger(e.slot, o1, tail);
    var o2 := o1 + [Number(e.slot)];
    var o3 := if e.GrantR? then o2 + [Number(e.offset)] else o2;
    if e.GrantR? {
      FeedInteger(e.offset, o2, [RECORD] + rest);
    } else {
      assert tail == [RECORD] + rest;
    }
    MarksRecord(o3, rest);
    assert o3 + [Mark] == out + EventParsed(e);
  }

  function StreamParsed(events: seq<Event>): seq<Parsed> {
    if events == [] then [] else EventParsed(events[0]) + StreamParsed(events[1..])
  }

  lemma {:induction false} FeedStream(events: seq<Event>, out: seq<Parsed>)
    ensures FeedAll(AtTop(out), StreamTokens(events)) == Some(AtTop(out + StreamParsed(events)))
    decreases |events|
  {
    hide FeedAll, EventTokens, EventParsed;
    if events == [] {
      FeedNone(AtTop(out));
      assert out + [] == out;
    } else {
      FeedEvent(events[0], out, StreamTokens(events[1..]));
      FeedStream(events[1..], out + EventParsed(events[0]));
      assert out + EventParsed(events[0]) + StreamParsed(events[1..]) == out + StreamParsed(events);
    }
  }

  lemma Skips(x: Parsed, rest: seq<Parsed>)
    requires !IsGrant(x)
    ensures Extract([x] + rest) == Extract(rest)
  {
    assert ([x] + rest)[1..] == rest;
  }

  lemma NumbersSkip(x: Parsed, rest: seq<Parsed>, need: nat, nums: seq<int>)
    requires |nums| < need && x.Text?
    ensures Numbers([x] + rest, need, nums) == Numbers(rest, need, nums)
  {
    assert ([x] + rest)[1..] == rest;
  }

  lemma NumbersTake(v: int, rest: seq<Parsed>, need: nat, nums: seq<int>)
    requires |nums| < need
    ensures Numbers([Number(v)] + rest, need, nums) == Numbers(rest, need, nums + [v])
  {
    assert ([Number(v)] + rest)[1..] == rest;
  }

  lemma NumbersFull(rest: seq<Parsed>, need: nat, nums: seq<int>)
    requires |nums| >= need
    ensures Numbers(rest, need, nums) == (nums, rest)
  {
  }

  lemma ExtractsEvent(e: Event, rest: seq<Parsed>)
    ensures Extract(EventParsed(e) + rest) == Prepend(e, Extract(rest))
  {
    hide Extract, Numbers, EventParsed, NumbersOf;
    var c := CommandOf(e);
    var t := Text("");
    var body := AfterCommand(e, [Mark] + rest);
    EventLaid(e, rest);
    Skips(t, [t] + ([t] + ([Command(c)] + body)));
    Skips(t, [t] + ([Command(c)] + body));
    Skips(t, [Command(c)] + body);
    EventNumbers(e, [Mark] + rest);
    assert EventOf(c, NumbersOf(e)) == e by { EventBack(e); }
    ExtractsGrant(c, body, NumbersOf(e), [Mark] + rest);
    Skips(Mark, rest);
  }

  function NumbersOf(e: Event): seq<int> {
    if e.GrantR? then [] + [e.holder] + [e.slot] + [e.offset] else [] + [e.holder] + [e.slot]
  }

  /** A grant record from behind its command word on. */
  function AfterCommand(e: Event, rest: seq<Parsed>): seq<Parsed> {
    [Text("")] + ([Text("")] + ([Text("")] + ([Number(e.holder)] + ([Number(e.slot)]
      + if e.GrantR? then [Number(e.offset)] + rest else rest))))
  }

  lemma EventLaid(e: Event, rest: seq<Parsed>)
    ensures EventParsed(e) + rest
         == [Text("")] + ([Text("")] + ([Text("")] + ([Command(CommandOf(e))] + AfterCommand(e, [Mark] + rest))))
  {
  }

  lemma EventBack(e: Event)
    ensures |NumbersOf(e)| >= Need(CommandOf(e)) && EventOf(CommandOf(e), NumbersOf(e)) == e
  {
  }

  lemma EventNumbers(e: Event, rest: seq<Parsed>)
    ensures |NumbersOf(e)| >= Need(CommandOf(e))
    ensures Numbers(AfterCommand(e, rest), Need(CommandOf(e)), []) == (NumbersOf(e), rest)
  {
    hide Numbers;
    var need := Need(CommandOf(e));
    var t := Text("");
    var r1 := if e.GrantR? then [Number(e.offset)] + rest else rest;
    var r2 := [Number(e.holder)] + ([Number(e.slot)] + r1);
    NumbersSkip(t, [t] + ([t] + r2), need, []);
    NumbersSkip(t, [t] + r2, need, []);
    NumbersSkip(t, r2, need, []);
    NumbersTake(e.holder, [Number(e.slot)] + r1, need, []);
    NumbersTake(e.slot, r1, need, [] + [e.holder]);
    if e.GrantR? {
      NumbersTake(e.offset, rest, need, [] + [e.holder] + [e.slot]);
    }
    NumbersFull(rest, need, NumbersOf(e));
  }

  lemma ExtractsGrant(c: Token, xs: seq<Parsed>, nums: seq<int>, rest: seq<Parsed>)
    requires 1 <= c <= 3 && Numbers(xs, Need(c), []) == (nums, rest) && |nums| >= Need(c)
    ensures Extract([Command(c)] + xs) == Prepend(EventOf(c, nums), Extract(rest))
  {
    assert ([Command(c)] + xs)[1..] == xs;
    NumbersShrinks(xs, Need(c), []);
    hide Numbers;
  }

  lemma {:induction false} ExtractsStream(events: seq<Event>)
    ensures Extract(StreamParsed(events)) == Some(events)
    decreases |events|
  {
    hide EventParsed;
    if events != [] {
      ExtractsEvent(events[0], StreamParsed(events[1..]));
      ExtractsStream(events[1..]);
      assert [events[0]] + events[1..] == events;
    }
  }

  /** Reading the tokens of any sequence of grant records, legal or not, gives the
      events back exactly. */
  lemma StreamRoundTrip(events: seq<Event>)
    ensures ExtractTokens(StreamTokens(events)) == Some(events)
  {
    FeedStream(events, []);
    assert [] + StreamParsed(events) == StreamParsed(events);
    ExtractsStream(events);
  }

  /** The guard lets a grant stream through exactly when every event in it would
      have been accepted in order, and then returns the table they build. */
  lemma ValidatesWhenAccepted(events: seq<Event>)
    ensures Validate(StreamTokens(events)) == Replay(NO_GRANTS, events)
  {
    StreamRoundTrip(events);
  }

  // ----- the encoder -----

  lemma {:induction false} StreamSnoc(events: seq<Event>, e: Event)
    ensures StreamTokens(events + [e]) == StreamTokens(events) + EventTokens(e)
  {
    hide EventTokens;
    if events == [] {
      assert [] + [e] == [e] && [e][1..] == [];
    } else {
      assert (events + [e])[1..] == events[1..] + [e];
      StreamSnoc(events[1..], e);
    }
  }

  class OwnershipEncoder {
    var writers: map<int, int>
    var pins: map<int, set<(int, int)>>
    var eventLog: seq<Event>
    /** Every token handed out so far. */
    ghost var stream: seq<Token>

    /** The live table is the replay of the log, and the log is what the stream
        says: no hidden state. */
    ghost predicate Valid()
      reads this
    {
      && Replay(NO_GRANTS, eventLog) == Some(Table(writers, pins))
      && stream == StreamTokens(eventLog)
      && Validate(stream) == Some(Table(writers, pins))
    }

    constructor ()
      ensures Valid() && eventLog == []
    {
      writers, pins, eventLog, stream := map[], map[], [], [];
      new;
      ValidatesWhenAccepted([]);
    }

    /** Refused, with no token made and nothing changed, while anyone holds the slot. */
    method EncodeGrantW(slot: int, holder: int) returns (r: Option<seq<Token>>)
      requires Valid()
      modifies this
      ensures Valid() && pins == old(pins)
      ensures r.None? <==> slot in old(writers)
      ensures r.None? ==> writers == old(writers) && eventLog == old(eventLog) && stream == old(stream)
      ensures r.Some? ==> r.value == EventTokens(GrantW(holder, slot)) && stream == old(stream) + r.value
      ensures r.Some? ==> writers == old(writers)[slot := holder] && eventLog == old(eventLog) + [GrantW(holder, slot)]
    {
      hide Replay, Validate, StreamTokens, EventTokens, EncodeCommand, EncodeInteger;
      if slot in writers {
        return None;
      }
      GrowLog(eventLog, GrantW(holder, slot), Table(writers, pins));
      writers := writers[slot := holder];
      eventLog := eventLog + [GrantW(holder, slot)];
      var tokens := EncodeCommand(2, holder) + EncodeInteger(slot) + [RECORD];
      TokensAre(GrantW(holder, slot));
      stream := stream + tokens;
      return Some(tokens);
    }

    /** Always encodable. */
    method EncodeGrantR(slot: int, holder: int, offset: int) returns (r: seq<Token>)
      requires Valid()
      modifies this
      ensures Valid() && writers == old(writers)
      ensures r == EventTokens(GrantR(holder, slot, offset)) && stream == old(stream) + r
      ensures eventLog == old(eventLog) + [GrantR(holder, slot, offset)]
      ensures pins == old(pins)[slot := (if slot in old(pins) then old(pins)[slot] else {}) + {(holder, offset)}]
    {
      hide Replay, Validate, StreamTokens, EventTokens, EncodeCommand, EncodeInteger;
      GrowLog(eventLog, GrantR(holder, slot, offset), Table(writers, pins));
      pins := pins[slot := (if slot in pins then pins[slot] else {}) + {(holder, offset)}];
      eventLog := eventLog + [GrantR(holder, slot, offset)];
      r := EncodeCommand(1, holder) + EncodeInteger(slot) + EncodeInteger(offset) + [RECORD];
      TokensAre(GrantR(holder, slot, offset));
      stream := stream + r;
    }

    /** Only the holder can end its own grant. */
    method EncodeRevoke(slot: int, holder: int) returns (r: Option<seq<Token>>)
      requires Valid()
      modifies this
      ensures Valid() && pins == old(pins)
      ensures r.Some? <==> slot in old(writers) && old(writers)[slot] == holder
      ensures r.None? ==> writers == old(writers) && eventLog == old(eventLog) && stream == old(stream)
      ensures r.Some? ==> r.value == EventTokens(Revoke(holder, slot)) && stream == old(stream) + r.value
      ensures r.Some? ==> writers == old(writers) - {slot} && eventLog == old(eventLog) + [Revoke(holder, slot)]
    {
      hide Replay, Validate, StreamTokens, EventTokens, EncodeCommand, EncodeInteger;
      if slot !in writers || writers[slot] != holder {
        return None;
      }
      GrowLog(eventLog, Revoke(holder, slot), Table(writers, pins));
      writers := writers - {slot};
      eventLog := eventLog + [Revoke(holder, slot)];
      var tokens := EncodeCommand(3, holder) + EncodeInteger(slot) + [RECORD];
      TokensAre(Revoke(holder, slot));
      stream := stream + tokens;
      return Some(tokens);
    }

    /** A write reaches the grid exactly when the holder has the slot. */
    method WriteWithGrant(grid: AllocGrids.AllocGrid, slot: nat, holder: int, tokens: seq<Token>) returns (ok: bool)
      requires Valid() && grid.Valid()
      modifies grid
      ensures Valid() && grid.Valid()
      ensures ok == (slot in writers && writers[slot] == holder)
      ensures grid.State() ==
        if ok then AllocDisk.WriteRecord(old(grid.State()), slot, tokens) else old(grid.State())
    {
      if slot !in writers || writers[slot] != holder {
        return false;
      }
      var off := grid.Write(slot, tokens);
      return true;
    }
  }

  lemma TokensAre(e: Event)
    ensures EventTokens(e)
         == EncodeCommand(CommandOf(e), e.holder) + EncodeInteger(e.slot)
            + (if e.GrantR? then EncodeInteger(e.offset) + [RECORD] else [RECORD])
    ensures e.GrantR? ==>
              EventTokens(e)
              == EncodeCommand(CommandOf(e), e.holder) + EncodeInteger(e.slot) + EncodeInteger(e.offset) + [RECORD]
  {
    hide EncodeInteger, EncodeCommand;
  }

  /** One accepted event more, in the log, the table and the stream alike. */
  lemma GrowLog(log: seq<Event>, e: Event, t: Table)
    requires Replay(NO_GRANTS, log) == Some(t) && Apply(t, e).Some?
    ensures Replay(NO_GRANTS, log + [e]) == Apply(t, e)
    ensures StreamTokens(log + [e]) == StreamTokens(log) + EventTokens(e)
    ensures Validate(StreamTokens(log) + EventTokens(e)) == Apply(t, e)
  {
    hide Apply, EventTokens, Validate;
    ReplaySnoc(NO_GRANTS, log, e);
    StreamSnoc(log, e);
    ValidatesWhenAccepted(log + [e]);
  }

  // ----- the extraction loop -----

  method ExtractGrantEvents(tokens: seq<Token>) returns (events: Option<seq<Event>>)
    ensures events == ExtractTokens(tokens)
  {
    hide Extract, Numbers, PrependAll, Prepend, EventOf, FeedAll;
    var parser := new Parser();
    var ok := parser.AcceptAll(tokens);
    if !ok {
      return None;
    }
    var out := parser.output;
    var found: seq<Event> := [];
    var i := 0;
    assert out[0..] == out;
    PrependNone(Extract(out));
    while i < |out|
      invariant i <= |out|
      invariant Extract(out) == PrependAll(found, Extract(out[i..]))
    {
      assert out[i..] == [out[i]] + out[i + 1..];
      if IsGrant(out[i]) {
        var need := Need(out[i].cmd);
        var nums: seq<int> := [];
        var j := i + 1;
        while j < |out| && |nums| < need && !out[j].Mark? && !out[j].Command?
          invariant i < j <= |out|
          invariant Numbers(out[j..], need, nums) == Numbers(out[i + 1..], need, [])
        {
          NumbersStep(out, j, need, nums);
          if out[j].Number? {
            nums := nums + [out[j].value];
          }
          j := j + 1;
        }
        NumbersStop(out[j..], need, nums);
        if |nums| < need {
          ExtractsShort(out[i].cmd, out[i + 1..]);
          PrependShort(found);
          return None;
        }
        ExtractsGrant(out[i].cmd, out[i + 1..], nums, out[j..]);
        PrependStep(found, EventOf(out[i].cmd, nums), Extract(out[j..]));
        found := found + [EventOf(out[i].cmd, nums)];
        i := j;
      } else {
        Skips(out[i], out[i + 1..]);
        i := i + 1;
      }
    }
    PrependLast(found, out[i..]);
    return Some(found);
  }

  lemma NumbersStep(xs: seq<Parsed>, j: nat, need: nat, nums: seq<int>)
    requires j < |xs| && |nums| < need && !xs[j].Mark? && !xs[j].Command?
    ensures Numbers(xs[j..], need, nums)
         == Numbers(xs[j + 1..], need, if xs[j].Number? then nums + [xs[j].value] else nums)
  {
    assert xs[j..][1..] == xs[j + 1..];
  }

  lemma NumbersStop(xs: seq<Parsed>, need: nat, nums: seq<int>)
    requires xs == [] || |nums| >= need || xs[0].Mark? || xs[0].Command?
    ensures Numbers(xs, need, nums) == (nums, xs)
  {
  }

  lemma ExtractsShort(c: Token, xs: seq<Parsed>)
    requires 1 <= c <= 3 && |Numbers(xs, Need(c), []).0| < Need(c)
    ensures Extract([Command(c)] + xs) == None
  {
    assert ([Command(c)] + xs)[1..] == xs;
    hide Numbers;
  }

  lemma PrependShort(found: seq<Event>)
    ensures PrependAll(found, None) == None
  {
  }

  lemma PrependLast(found: seq<Event>, xs: seq<Parsed>)
    requires xs == []
    ensures PrependAll(found, Extract(xs)) == Some(found)
  {
    assert found + [] == found;
  }

  function PrependAll(found: seq<Event>, es: Option<seq<Event>>): Option<seq<Event>> {
    if es.None? then None else Some(found + es.value)
  }

  lemma PrependNone(es: Option<seq<Event>>)
    ensures PrependAll([], es) == es
  {
    if es.Some? {
      assert [] + es.value == es.value;
    }
  }

  lemma PrependStep(found: seq<Event>, e: Event, es: Option<seq<Event>>)
    ensures PrependAll(found, Prepend(e, es)) == PrependAll(found + [e], es)
  {
    if es.Some? {
      assert found + ([e] + es.value) == found + [e] + es.value;
    }
  }

  method ValidateOwnership(tokens: seq<Token>) returns (table: Option<Table>)
    ensures table == Validate(tokens)
  {
    var events := ExtractGrantEvents(tokens);
    if events.None? {
      return None;
    }
    var t := NO_GRANTS;
    var i := 0;
    assert events.value[0..] == events.value;
    while i < |events.value|
      invariant i <= |events.value| && Replay(t, events.value[i..]) == Replay(NO_GRANTS, events.value)
    {
      assert events.value[i..][1..] == events.value[i + 1..];
      var u := Apply(t, events.value[i]);
      if u.None? {
        return None;
      }
      t := u.value;
      i := i + 1;
    }
    assert events.value[i..] == [];
    return Some(t);
  }
}
