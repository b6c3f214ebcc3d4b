/** Decoding a provider's event stream while it arrives (the streaming loop of `execute_run` in
    piqo-server/src/supervisor.rs). Text is buffered and flushed by size, by time or by a tick, tool calls arrive
    in interleaved fragments, chunks end anywhere. What is persisted is what decoding the whole response at once
    would persist. */
module Decoder {
  import opened Prelude
  import opened Framing

  datatype Delta =
    | TextDelta(text: string)
    | ToolFragment(index: Option<nat>, fragmentId: Option<Id>, fragmentName: Option<string>, fragment: string)
    | WholeCall(call: Call)
    | UsageDelta(usage: Json)
    | CompletedDelta
    | RequiresActionDelta

  /** A call as it reaches the log, and the buffer its fragments collect in. */
  datatype Call = Call(callId: Option<Id>, name: Option<string>, arguments: string)

  /** What a frame holds: the deltas of its data, or bytes that are not UTF-8 or not an event. A frame without data
      holds no deltas. */
  datatype Parsed = Deltas(deltas: seq<Delta>) | Malformed

  /** How the stream stands: still going, paused for an action, or failed for good. */
  datatype Exit = Going | NeedsAction | Broken

  // ---------------------------------------------------------------- one shot

  /** What has been decoded: all the text, the calls under way and the calls complete. */
  datatype Core = Core(
    text: string,
    tools: map<string, Call>,
    calls: multiset<Call>,
    sawDelta: bool,
    sawCompleted: bool,
    usage: Option<Json>,
    exit: Exit)

  const START := Core("", map[], multiset{}, false, false, None, Going)

  function Digit(n: nat): char
    requires n < 10
  {
    "0123456789"[n]
  }

  function Decimal(n: nat): string {
    if n < 10 then [Digit(n)] else Decimal(n / 10) + [Digit(n % 10)]
  }

  const INDEXED := "stream-index-"

  /** The key a fragment names: its index, or else its call id. */
  function NamedKey(d: Delta): Option<string>
    requires d.ToolFragment?
  {
    if d.index.Some? then Some(INDEXED + Decimal(d.index.value)) else d.fragmentId
  }

  const ANONYMOUS := "anonymous-tool-"

  function KeyOf(d: Delta, buffers: nat): string
    requires d.ToolFragment?
  {
    if NamedKey(d).Some? then NamedKey(d).value else ANONYMOUS + Decimal(buffers)
  }

  function OrElse<T>(a: Option<T>, b: Option<T>): Option<T> { if a.Some? then a else b }

  function AddFragment(tools: map<string, Call>, d: Delta): map<string, Call>
    requires d.ToolFragment?
  {
    var key := KeyOf(d, |tools|);
    var entry := if key in tools then tools[key] else Call(d.fragmentId, d.fragmentName, "");
    tools[key := Call(OrElse(entry.callId, d.fragmentId), OrElse(entry.name, d.fragmentName), entry.arguments + d.fragment)]
  }

  /** The buffered calls, each once. */
  function Flushed(tools: map<string, Call>): multiset<Call>
    decreases tools.Keys
  {
    if tools == map[] then multiset{}
    else
      var k := First(tools.Keys);
      multiset{tools[k]} + Flushed(tools - {k})
  }

  predicate IsContent(d: Delta) { d.TextDelta? || d.ToolFragment? || d.WholeCall? }

  function OnDelta(c: Core, d: Delta): Core {
    var c := c.(sawDelta := c.sawDelta || IsContent(d));
    match d
    case TextDelta(text) => c.(text := c.text + text)
    case ToolFragment(_, _, _, _) => c.(tools := AddFragment(c.tools, d))
    case WholeCall(call) => c.(calls := c.calls + multiset{call})
    case UsageDelta(usage) => c.(usage := Some(usage))
    case CompletedDelta => c.(sawCompleted := true, calls := c.calls + Flushed(c.tools), tools := map[])
    case RequiresActionDelta => c.(exit := NeedsAction)
  }

  function OnDeltas(c: Core, ds: seq<Delta>): Core
    decreases |ds|
  {
    if ds == [] then c
    else
      var before := OnDeltas(c, ds[..|ds| - 1]);
      if before.exit.Going? then OnDelta(before, ds[|ds| - 1]) else before
  }

  function OnFrame(c: Core, parsed: Parsed): Core {
    match parsed
    case Deltas(ds) => OnDeltas(c, ds)
    case Malformed => c.(exit := Broken)
  }

  /** Decode all frames, first to last, until one ends the stream. */
  function OnFrames(c: Core, frames: seq<Framed>, parse: seq<Byte> -> Parsed): Core
    decreases |frames|
  {
    if frames == [] || !c.exit.Going? then c
    else OnFrames(OnFrame(c, parse(frames[0].frame)), frames[1..], parse)
  }

  /** Decode a whole response at once. */
  function OneShot(bytes: seq<Byte>, parse: seq<Byte> -> Parsed): Core {
    OnFrames(START, Frames(bytes), parse)
  }

  // ---------------------------------------------------------------- the buffer as it grows

  /** Decode what is complete and keep the rest. */
  function Scan(c: Core, buffer: seq<Byte>, parse: seq<Byte> -> Parsed): (Core, seq<Byte>)
    decreases |buffer|
  {
    if !c.exit.Going? || FindFrameEnd(buffer).None? then (c, buffer)
    else Scan(OnFrame(c, parse(FirstFrame(buffer).frame)), Drained(buffer), parse)
  }

  lemma {:induction false} ScanIsFrames(c: Core, buffer: seq<Byte>, parse: seq<Byte> -> Parsed)
    ensures Scan(c, buffer, parse).0 == OnFrames(c, Frames(buffer), parse)
    decreases |buffer|
  {
    if c.exit.Going? && FindFrameEnd(buffer).Some? {
      assert Frames(buffer)[1..] == Frames(Drained(buffer));
      ScanIsFrames(OnFrame(c, parse(FirstFrame(buffer).frame)), Drained(buffer), parse);
    }
  }

  /** Decoding a buffer and then more bytes is decoding both together. */
  lemma {:induction false} ScanSplit(c: Core, a: seq<Byte>, b: seq<Byte>, parse: seq<Byte> -> Parsed)
    ensures var (c1, kept) := Scan(c, a, parse);
            Scan(c, a + b, parse) == Scan(c1, kept + b, parse)
    decreases |a|
  {
    if c.exit.Going? && FindFrameEnd(a).Some? {
      DrainedMore(a, b);
      ScanSplit(OnFrame(c, parse(FirstFrame(a).frame)), Drained(a), b, parse);
    }
  }

  // ---------------------------------------------------------------- tool fragments

  lemma FlushedFirst(tools: map<string, Call>) returns (first: string)
    requires tools != map[]
    ensures first in tools && Flushed(tools) == multiset{tools[first]} + Flushed(tools - {first})
  {
    hide First;
    first := First(tools.Keys);
  }

  lemma RemovedTwice(tools: map<string, Call>, j: string, k: string)
    ensures tools - {j} - {k} == tools - {k} - {j}
  {
  }

  lemma Swapped(a: multiset<Call>, b: multiset<Call>, c: multiset<Call>)
    ensures a + (b + c) == b + (a + c)
  {
  }

  /** The order in which buffers are flushed does not matter. */
  lemma {:induction false} FlushedRemove(tools: map<string, Call>, k: string)
    requires k in tools
    ensures Flushed(tools) == multiset{tools[k]} + Flushed(tools - {k})
    decreases tools.Keys
  {
    hide Flushed;
    var first := FlushedFirst(tools);
    if k != first {
      FlushedRemove(tools - {first}, k);
      FlushedRemove(tools - {k}, first);
      RemovedTwice(tools, first, k);
      Swapped(multiset{tools[first]}, multiset{tools[k]}, Flushed(tools - {first} - {k}));
    }
  }

  /** The buffers that hold a call. */
  function Holding(tools: map<string, Call>, call: Call): set<string> { set k | k in tools && tools[k] == call }

  lemma WithoutOne(tools: map<string, Call>, k: string, call: Call)
    requires k in tools
    ensures |tools.Keys| == |(tools - {k}).Keys| + 1
    ensures |Holding(tools, call)| == |Holding(tools - {k}, call)| + (if tools[k] == call then 1 else 0)
  {
    hide Holding;
    assert tools.Keys == (tools - {k}).Keys + {k};
    HoldingWithoutOne(tools, k, call);
  }

  lemma HoldingWithoutOne(tools: map<string, Call>, k: string, call: Call)
    requires k in tools
    ensures |Holding(tools, call)| == |Holding(tools - {k}, call)| + (if tools[k] == call then 1 else 0)
  {
    assert Holding(tools, call) == Holding(tools - {k}, call) + (if tools[k] == call then {k} else {});
  }

  /** Flushing emits one call for each buffer: every call as often as there are buffers that hold it. */
  lemma {:induction false} FlushedOnce(tools: map<string, Call>, call: Call)
    ensures |Flushed(tools)| == |tools.Keys|
    ensures Flushed(tools)[call] == |Holding(tools, call)|
    decreases tools.Keys
  {
    if tools != map[] {
      var first := FlushedFirst(tools);
      hide Flushed;
      FlushedOnce(tools - {first}, call);
      WithoutOne(tools, first, call);
      hide Holding;
    }
  }

  /** The keys a sequence of deltas uses. A fragment that names none gets one numbered by the keys so far. */
  function Keys(ds: seq<Delta>): set<string>
    decreases |ds|, 0
  {
    if ds == [] then {} else Keys(ds[..|ds| - 1]) + KeyUsed(ds[..|ds| - 1], ds[|ds| - 1])
  }

  /** The key of a delta that follows others, if it is a fragment. */
  function KeyUsed(before: seq<Delta>, d: Delta): set<string>
    decreases |before|, 1
  {
    if d.ToolFragment? then {KeyOf(d, |Keys(before)|)} else {}
  }

  /** The fragments that go to a key, glued together in order. */
  function Arguments(ds: seq<Delta>, key: string): string
    decreases |ds|
  {
    if ds == [] then ""
    else
      var n := |ds| - 1;
      Arguments(ds[..n], key) + (if key in KeyUsed(ds[..n], ds[n]) then ds[n].fragment else "")
  }

  function IdOf(d: Delta): Option<Id> { if d.ToolFragment? then d.fragmentId else None }

  function NameOf(d: Delta): Option<string> { if d.ToolFragment? then d.fragmentName else None }

  /** What the fragments that go to a key first say, if one of them says anything. */
  function FirstSaid(ds: seq<Delta>, key: string, said: Delta -> Option<string>): Option<string>
    decreases |ds|
  {
    if ds == [] then None
    else
      var n := |ds| - 1;
      if FirstSaid(ds[..n], key, said).Some? then FirstSaid(ds[..n], key, said)
      else if key in KeyUsed(ds[..n], ds[n]) then said(ds[n])
      else None
  }

  lemma {:induction false} FirstSaidIs(ds: seq<Delta>, key: string, said: Delta -> Option<string>)
    ensures FirstSaid(ds, key, said).None? ==> forall i :: 0 <= i < |ds| && key in KeyUsed(ds[..i], ds[i]) ==> said(ds[i]).None?
    ensures FirstSaid(ds, key, said).Some? ==>
              exists i :: 0 <= i < |ds| && key in KeyUsed(ds[..i], ds[i]) && said(ds[i]) == FirstSaid(ds, key, said)
                          && forall j :: 0 <= j < i && key in KeyUsed(ds[..j], ds[j]) ==> said(ds[j]).None?
    decreases |ds|
  {
    hide KeyUsed;
    if ds != [] {
      var n := |ds| - 1;
      FirstSaidIs(ds[..n], key, said);
      forall i | 0 <= i < n ensures ds[..n][..i] == ds[..i] {
      }
      if FirstSaid(ds[..n], key, said).Some? {
        var i :| 0 <= i < n && key in KeyUsed(ds[..n][..i], ds[..n][i]) && said(ds[i]) == FirstSaid(ds, key, said)
                 && forall j :: 0 <= j < i && key in KeyUsed(ds[..n][..j], ds[..n][j]) ==> said(ds[..n][j]).None?;
        assert key in KeyUsed(ds[..i], ds[i]);
      }
    }
  }

  /** The call of a key: of all that is sent for it the first id, the first name, and every piece of its arguments. */
  function Gathered(ds: seq<Delta>, key: string): Call {
    Call(FirstSaid(ds, key, IdOf), FirstSaid(ds, key, NameOf), Arguments(ds, key))
  }

  function Gather(ds: seq<Delta>): map<string, Call> { map key | key in Keys(ds) :: Gathered(ds, key) }

  lemma {:induction false} NothingGathered(ds: seq<Delta>, key: string)
    requires key !in Keys(ds)
    ensures Gathered(ds, key) == Call(None, None, "")
    decreases |ds|
  {
    hide KeyUsed;
    if ds != [] {
      NothingGathered(ds[..|ds| - 1], key);
    }
  }

  lemma GatheredNext(ds: seq<Delta>, d: Delta, key: string)
    ensures Gathered(ds + [d], key) ==
            if key !in KeyUsed(ds, d) then Gathered(ds, key)
            else var c := Gathered(ds, key); Call(OrElse(c.callId, IdOf(d)), OrElse(c.name, NameOf(d)), c.arguments + d.fragment)
  {
    assert (ds + [d])[..|ds|] == ds;
    hide KeyUsed;
  }

  lemma KeysNext(ds: seq<Delta>, d: Delta)
    ensures Keys(ds + [d]) == Keys(ds) + KeyUsed(ds, d)
    ensures d.ToolFragment? ==> KeyUsed(ds, d) == {KeyOf(d, |Gather(ds)|)}
    ensures !d.ToolFragment? ==> KeyUsed(ds, d) == {}
  {
    assert (ds + [d])[..|ds|] == ds;
    assert Gather(ds).Keys == Keys(ds);
    KeysCount(Gather(ds));
    hide KeyOf;
  }

  /** However the fragments of different calls interleave, each buffer collects exactly its own, in order. */
  lemma GatherNext(ds: seq<Delta>, d: Delta)
    ensures Gather(ds + [d]) == if d.ToolFragment? then AddFragment(Gather(ds), d) else Gather(ds)
  {
    hide Keys, KeyUsed, KeyOf, Gathered;
    KeysNext(ds, d);
    forall key ensures Gathered(ds + [d], key) ==
                       if key !in KeyUsed(ds, d) then Gathered(ds, key)
                       else var c := Gathered(ds, key); Call(OrElse(c.callId, IdOf(d)), OrElse(c.name, NameOf(d)), c.arguments + d.fragment)
    {
      GatheredNext(ds, d, key);
    }
    if d.ToolFragment? && KeyOf(d, |Gather(ds)|) !in Keys(ds) {
      NothingGathered(ds, KeyOf(d, |Gather(ds)|));
    }
  }

  // ---------------------------------------------------------------- what a sequence of deltas says

  /** The text of all text deltas, in order. */
  function Texts(ds: seq<Delta>): string
    decreases |ds|
  {
    if ds == [] then ""
    else
      var n := |ds| - 1;
      Texts(ds[..n]) + (if ds[n].TextDelta? then ds[n].text else "")
  }

  /** The deltas since the last completion. */
  function Open(ds: seq<Delta>): (r: seq<Delta>)
    ensures |r| <= |ds| && r == ds[|ds| - |r|..]
    ensures forall d :: d in r ==> !d.CompletedDelta?
    ensures |r| < |ds| ==> ds[|ds| - |r| - 1].CompletedDelta?
    decreases |ds|
  {
    if ds == [] || ds[|ds| - 1].CompletedDelta? then []
    else
      var n := |ds| - 1;
      var before := Open(ds[..n]);
      assert ds[|ds| - |before| - 1..] == before + [ds[n]];
      before + [ds[n]]
  }

  /** The calls sent whole, and those gathered up to each completion. */
  function Sent(ds: seq<Delta>): multiset<Call>
    decreases |ds|
  {
    if ds == [] then multiset{}
    else
      var n := |ds| - 1;
      Sent(ds[..n]) +
      match ds[n]
      case WholeCall(call) => multiset{call}
      case CompletedDelta => Flushed(Gather(Open(ds[..n])))
      case _ => multiset{}
  }

  /** The usage reported last. */
  predicate LastReported(ds: seq<Delta>, usage: Option<Json>) {
    match usage
    case None => forall d :: d in ds ==> !d.UsageDelta?
    case Some(u) => exists i :: 0 <= i < |ds| && ds[i] == UsageDelta(u) && forall j :: i < j < |ds| ==> !ds[j].UsageDelta?
  }

  predicate HasContent(ds: seq<Delta>) { exists d :: d in ds && IsContent(d) }

  predicate Means(c: Core, ds: seq<Delta>) {
    && c.text == Texts(ds)
    && c.tools == Gather(Open(ds))
    && c.calls == Sent(ds)
    && c.sawDelta == HasContent(ds)
    && c.sawCompleted == (CompletedDelta in ds)
    && LastReported(ds, c.usage)
    && c.exit == if RequiresActionDelta in ds then NeedsAction else Going
  }

  lemma WordsNext(ds: seq<Delta>, d: Delta)
    ensures Texts(ds + [d]) == Texts(ds) + (if d.TextDelta? then d.text else "")
    ensures Open(ds + [d]) == if d.CompletedDelta? then [] else Open(ds) + [d]
    ensures Sent(ds + [d]) == Sent(ds) +
                              match d
                              case WholeCall(call) => multiset{call}
                              case CompletedDelta => Flushed(Gather(Open(ds)))
                              case _ => multiset{}
  {
    assert (ds + [d])[..|ds|] == ds;
    hide Gather, Flushed;
  }

  lemma ReportedNext(ds: seq<Delta>, d: Delta, usage: Option<Json>)
    requires LastReported(ds, usage)
    ensures LastReported(ds + [d], if d.UsageDelta? then Some(d.usage) else usage)
  {
    var more := ds + [d];
    if d.UsageDelta? {
      assert more[|ds|] == d;
    } else if usage.Some? {
      var i :| 0 <= i < |ds| && ds[i] == UsageDelta(usage.value) && forall j :: i < j < |ds| ==> !ds[j].UsageDelta?;
      assert more[i] == UsageDelta(usage.value);
    }
  }

  lemma DeltaMeaning(c: Core, ds: seq<Delta>, d: Delta)
    requires Means(c, ds) && c.exit.Going?
    ensures Means(OnDelta(c, d), ds + [d])
  {
    hide Texts, Open, Sent, Gather, Flushed, AddFragment, LastReported, HasContent, IsContent;
    WordsNext(ds, d);
    ReportedNext(ds, d, c.usage);
    GatherNext(Open(ds), d);
    GatherNone();
    MoreDeltas(ds, d);
  }

  lemma MoreDeltas(ds: seq<Delta>, d: Delta)
    ensures CompletedDelta in ds + [d] <==> CompletedDelta in ds || d.CompletedDelta?
    ensures RequiresActionDelta in ds + [d] <==> RequiresActionDelta in ds || d.RequiresActionDelta?
    ensures HasContent(ds + [d]) == (HasContent(ds) || IsContent(d))
  {
    hide IsContent;
    assert d in ds + [d];
    assert forall x :: x in ds + [d] <==> x in ds || x == d;
  }

  lemma GatherNone()
    ensures Gather([]) == map[]
  {
  }

  lemma NothingMeans()
    ensures OnDeltas(START, []) == START && Means(START, [])
  {
    GatherNone();
    hide Gather;
  }

  lemma MeansExit(c: Core, ds: seq<Delta>)
    requires Means(c, ds)
    ensures c.exit == if RequiresActionDelta in ds then NeedsAction else Going
  {
  }

  lemma DeltasNext(c: Core, ds: seq<Delta>)
    requires ds != [] && OnDeltas(c, ds[..|ds| - 1]).exit.Going?
    ensures OnDeltas(c, ds) == OnDelta(OnDeltas(c, ds[..|ds| - 1]), ds[|ds| - 1])
  {
    hide OnDelta;
  }

  /** What has been decoded says what the deltas say. */
  lemma {:induction false} DeltasMeaning(ds: seq<Delta>)
    requires forall i :: 0 <= i < |ds| - 1 ==> !ds[i].RequiresActionDelta?
    ensures Means(OnDeltas(START, ds), ds)
    decreases |ds|
  {
    hide *;
    if ds == [] {
      NothingMeans();
    } else {
      var n := |ds| - 1;
      DeltasMeaning(ds[..n]);
      assert RequiresActionDelta !in ds[..n];
      MeansExit(OnDeltas(START, ds[..n]), ds[..n]);
      DeltaMeaning(OnDeltas(START, ds[..n]), ds[..n], ds[n]);
      DeltasNext(START, ds);
      assert ds[..n] + [ds[n]] == ds;
    }
  }

  lemma MeansTools(c: Core, ds: seq<Delta>)
    requires Means(c, ds)
    ensures c.tools == Gather(Open(ds))
  {
  }

  lemma GatherKeys(ds: seq<Delta>)
    ensures Gather(ds).Keys == Keys(ds)
  {
    hide Keys, Gathered;
  }

  /** Without a completion the buffers are the keys used. */
  lemma BuffersAreKeys(ds: seq<Delta>)
    requires forall d :: d in ds ==> !d.RequiresActionDelta? && !d.CompletedDelta?
    ensures OnDeltas(START, ds).tools.Keys == Keys(ds)
  {
    hide Keys, OnDeltas, Gathered, Sent, Texts, Gather, Means, LastReported, HasContent;
    DeltasMeaning(ds);
    MeansTools(OnDeltas(START, ds), ds);
    assert Open(ds) == ds;
    GatherKeys(ds);
  }

  // ---------------------------------------------------------------- what a response says

  /** The deltas of the frames before the first one that cannot be read. */
  function Readable(frames: seq<Framed>, parse: seq<Byte> -> Parsed): seq<Delta>
    decreases |frames|
  {
    if frames == [] || parse(frames[0].frame).Malformed? then []
    else parse(frames[0].frame).deltas + Readable(frames[1..], parse)
  }

  predicate AllReadable(frames: seq<Framed>, parse: seq<Byte> -> Parsed) {
    forall f :: f in frames ==> parse(f.frame).Deltas?
  }

  /** How many deltas are looked at: all, or those up to the first that asks for an action. */
  function LookedAt(ds: seq<Delta>): (n: nat)
    ensures n <= |ds|
    ensures forall i :: 0 <= i < n - 1 ==> !ds[i].RequiresActionDelta?
    ensures n < |ds| ==> n > 0 && ds[n - 1].RequiresActionDelta?
  {
    if ds == [] then 0 else if ds[0].RequiresActionDelta? then 1 else 1 + LookedAt(ds[1..])
  }

  lemma {:induction false} DeltasAppend(c: Core, xs: seq<Delta>, ys: seq<Delta>)
    ensures OnDeltas(c, xs + ys) == if OnDeltas(c, xs).exit.Going? then OnDeltas(OnDeltas(c, xs), ys) else OnDeltas(c, xs)
    decreases |ys|
  {
    hide OnDelta;
    if ys == [] {
      assert xs + ys == xs;
    } else {
      var n := |ys| - 1;
      DeltasAppend(c, xs, ys[..n]);
      assert (xs + ys)[..|xs + ys| - 1] == xs + ys[..n];
    }
  }

  /** Frame by frame is delta by delta, until a frame cannot be read. */
  lemma {:induction false} FramesAreDeltas(c: Core, frames: seq<Framed>, parse: seq<Byte> -> Parsed)
    requires c.exit.Going?
    ensures var o := OnDeltas(c, Readable(frames, parse));
            OnFrames(c, frames, parse) == if o.exit.Going? && !AllReadable(frames, parse) then o.(exit := Broken) else o
    decreases |frames|
  {
    hide OnDelta;
    if frames != [] && parse(frames[0].frame).Deltas? {
      var first, rest := parse(frames[0].frame).deltas, frames[1..];
      assert frames == [frames[0]] + rest;
      DeltasAppend(c, first, Readable(rest, parse));
      if OnDeltas(c, first).exit.Going? {
        FramesAreDeltas(OnDeltas(c, first), rest, parse);
      }
    }
  }

  /** What decoding a whole response gives: everything the deltas say up to the first one that asks for an action, in the
      frames before the first that cannot be read. */
  lemma ResponseMeaning(bytes: seq<Byte>, parse: seq<Byte> -> Parsed)
    ensures var frames := Frames(bytes);
            var all := Readable(frames, parse);
            var ds := all[..LookedAt(all)];
            var c := OneShot(bytes, parse);
            && c.exit == (if RequiresActionDelta in ds then NeedsAction else if AllReadable(frames, parse) then Going else Broken)
            && Means(c.(exit := if c.exit.Broken? then Going else c.exit), ds)
  {
    hide Means, AllReadable, Readable, OnDeltas, OnFrames;
    var frames := Frames(bytes);
    var all := Readable(frames, parse);
    var ds := all[..LookedAt(all)];
    var o := OnDeltas(START, ds);
    DeltasMeaning(ds);
    MeansExit(o, ds);
    if LookedAt(all) < |all| {
      DeltasStop(START, all, LookedAt(all));
    } else {
      assert ds == all;
    }
    FramesAreDeltas(START, frames, parse);
    assert START.exit.Going? && OnDeltas(START, all) == o;
    assert o.exit.Going? ==> o.(exit := Broken).(exit := Going) == o;
  }

  // What the keys are.

  predicate Names(d: Delta, key: string) { d.ToolFragment? && NamedKey(d) == Some(key) }

  /** A key that does not look anonymous collects exactly the fragments that name it. */
  lemma NamedFragments(before: seq<Delta>, d: Delta, key: string)
    requires !(ANONYMOUS <= key)
    ensures key in KeyUsed(before, d) <==> Names(d, key)
  {
    if d.ToolFragment? {
      assert ANONYMOUS <= ANONYMOUS + Decimal(|Keys(before)|);
    }
  }

  lemma {:induction false} DecimalInjective(a: nat, b: nat)
    requires Decimal(a) == Decimal(b)
    ensures a == b
    decreases a
  {
    DecimalLength(a);
    DecimalLength(b);
    var s, t := Decimal(a), Decimal(b);
    assert s[|s| - 1] == Digit(a % 10) && t[|t| - 1] == Digit(b % 10);
    if a >= 10 {
      assert s[..|s| - 1] == Decimal(a / 10) && t[..|t| - 1] == Decimal(b / 10);
      DecimalInjective(a / 10, b / 10);
    }
  }

  lemma DecimalLength(a: nat)
    ensures |Decimal(a)| >= 1 && (a >= 10 <==> |Decimal(a)| > 1)
  {
  }

  /** Which fragments belong to one call: with an index, those of the same index, whatever id they carry; without one, those of
      the same id, unless the id of one spells the index of the other. */
  lemma SameCall(d: Delta, e: Delta)
    requires d.ToolFragment? && e.ToolFragment?
    ensures NamedKey(d).None? <==> d.index.None? && d.fragmentId.None?
    ensures d.index.Some? && e.index.Some? ==> (NamedKey(d) == NamedKey(e) <==> d.index == e.index)
    ensures d.index.None? && e.index.None? ==> (NamedKey(d) == NamedKey(e) <==> d.fragmentId == e.fragmentId)
    ensures d.index.Some? && e.index.None? ==> (NamedKey(d) == NamedKey(e) <==> e.fragmentId == Some(INDEXED + Decimal(d.index.value)))
  {
    if d.index.Some? && e.index.Some? && NamedKey(d) == NamedKey(e) {
      assert NamedKey(d).value[|INDEXED|..] == Decimal(d.index.value);
      assert NamedKey(e).value[|INDEXED|..] == Decimal(e.index.value);
      DecimalInjective(d.index.value, e.index.value);
    }
  }

  /** No fragment names a key that looks anonymous. */
  predicate NoneClaims(ds: seq<Delta>) { forall d :: d in ds && d.ToolFragment? && NamedKey(d).Some? ==> !(ANONYMOUS <= NamedKey(d).value) }

  lemma GrowsByOne(before: set<string>, used: set<string>)
    requires |used| <= 1
    ensures |before + used| == |before| + (if used <= before then 0 else 1)
  {
    if used <= before {
      assert before + used == before;
    } else {
      var x :| x in used && x !in before;
      assert used == {x} + (used - {x});
    }
  }

  /** Anonymous keys are numbered below the number of keys. */
  lemma {:induction false} AnonymousBelow(ds: seq<Delta>, n: nat)
    requires NoneClaims(ds) && ANONYMOUS + Decimal(n) in Keys(ds)
    ensures n < |Keys(ds)|
    decreases |ds|
  {
    var k := |ds| - 1;
    var before, used := Keys(ds[..k]), KeyUsed(ds[..k], ds[k]);
    assert ds[k] in ds;
    GrowsByOne(before, used);
    var key := ANONYMOUS + Decimal(n);
    if key in before {
      AnonymousBelow(ds[..k], n);
    } else {
      assert |before + used| == |before| + 1;
      assert ANONYMOUS <= ANONYMOUS + Decimal(n);
      assert NamedKey(ds[k]).None?;
      assert key[|ANONYMOUS|..] == Decimal(n);
      assert (ANONYMOUS + Decimal(|before|))[|ANONYMOUS|..] == Decimal(|before|);
      assert key == ANONYMOUS + Decimal(|before|);
      DecimalInjective(n, |before|);
    }
  }

  /** Fragments with neither index nor id are never joined: each opens a buffer of its own, unless some call has an id
      that looks anonymous. */
  lemma AnonymousApart(ds: seq<Delta>, d: Delta)
    requires NoneClaims(ds) && d.ToolFragment? && NamedKey(d).None?
    ensures KeyUsed(ds, d) !! Keys(ds)
  {
    if ANONYMOUS + Decimal(|Keys(ds)|) in Keys(ds) {
      AnonymousBelow(ds, |Keys(ds)|);
    }
  }

  /** Two pieces of one call, sent without index or id, become two calls. */
  lemma PiecesComeApart(a: string, b: string)
    ensures var ds := [ToolFragment(None, None, Some("bash"), a), ToolFragment(None, None, None, b)];
            |OnDeltas(START, ds).tools.Keys| == 2
  {
    hide OnDeltas, Gathered, Open, Means, Sent, Texts;
    var ds := [ToolFragment(None, None, Some("bash"), a), ToolFragment(None, None, None, b)];
    BuffersAreKeys(ds);
    assert ds[..1] == [ds[0]] && ds[..1][..0] == [];
    AnonymousApart([ds[0]], ds[1]);
    assert Keys([ds[0]]) == KeyUsed([], ds[0]);
    assert Keys(ds) == Keys([ds[0]]) + KeyUsed([ds[0]], ds[1]);
  }

  // ---------------------------------------------------------------- what was persisted

  datatype Persisted = PersistedText(text: string) | PersistedCall(call: Call) | PersistedAction

  function TextOf(log: seq<Persisted>): string
    decreases |log|
  {
    if log == [] then ""
    else
      var last := log[|log| - 1];
      TextOf(log[..|log| - 1]) + (if last.PersistedText? then last.text else "")
  }

  function CallsOf(log: seq<Persisted>): multiset<Call>
    decreases |log|
  {
    if log == [] then multiset{}
    else
      var last := log[|log| - 1];
      CallsOf(log[..|log| - 1]) + (if last.PersistedCall? then multiset{last.call} else multiset{})
  }

  lemma PersistedNext(log: seq<Persisted>, p: Persisted)
    ensures TextOf(log + [p]) == TextOf(log) + (if p.PersistedText? then p.text else "")
    ensures CallsOf(log + [p]) == CallsOf(log) + (if p.PersistedCall? then multiset{p.call} else multiset{})
  {
    assert (log + [p])[..|log|] == log;
  }

  // ---------------------------------------------------------------- the loop

  /** What the select loop can receive next. */
  datatype Input = Chunk(bytes: seq<Byte>) | FlushTick | ReadError | Cancel | ShutDown

  datatype Verdict = DoneWith(usage: Option<Json>) | Failed(retry: bool) | WasCancelled | WasInterrupted | ActionRequired

  predicate Ends(i: Input) { !i.Chunk? && !i.FlushTick? }

  /** The position of the first input that ends the loop, or the number of inputs. */
  function EndIndex(inputs: seq<Input>): (n: nat)
    ensures n <= |inputs|
    ensures forall i :: 0 <= i < n ==> !Ends(inputs[i])
    ensures n < |inputs| ==> Ends(inputs[n])
  {
    if inputs == [] || Ends(inputs[0]) then 0 else 1 + EndIndex(inputs[1..])
  }

  function ChunkBytes(inputs: seq<Input>): seq<Byte>
    decreases |inputs|
  {
    if inputs == [] then []
    else
      var last := inputs[|inputs| - 1];
      ChunkBytes(inputs[..|inputs| - 1]) + (if last.Chunk? then last.bytes else [])
  }

  /** The bytes received before the loop is ended. */
  function Received(inputs: seq<Input>): seq<Byte> { ChunkBytes(inputs[..EndIndex(inputs)]) }

  /** The input that ends the loop, if any does before the stream is over. */
  function LastInput(inputs: seq<Input>): Option<Input> {
    if EndIndex(inputs) < |inputs| then Some(inputs[EndIndex(inputs)]) else None
  }

  function VerdictOf(c: Core, end: Option<Input>): Verdict {
    if c.exit.Broken? then Failed(false)
    else if c.exit.NeedsAction? then ActionRequired
    else if end == Some(Cancel) then WasCancelled
    else if end == Some(ShutDown) then WasInterrupted
    else if end == Some(ReadError) then Failed(!c.sawDelta)
    else if c.sawCompleted then DoneWith(c.usage)
    else Failed(false)
  }

  class ResponseDecoder {
    /** Whether the clock forces a flush at the n-th delta, and whether the n-th persist fails. */
    const late: nat -> bool
    const fails: nat -> bool
    const parse: seq<Byte> -> Parsed
    var handled: nat
    var stored: nat

    var buffer: seq<Byte>
    var textBuffer: string
    var toolBuffers: map<string, Call>
    var sawDelta: bool
    var sawCompleted: bool
    var usage: Option<Json>
    var exit: Exit
    var persisted: seq<Persisted>
    var failed: bool

    function View(): Core
      reads this
    {
      Core(TextOf(persisted) + textBuffer, toolBuffers, CallsOf(persisted), sawDelta, sawCompleted, usage, exit)
    }

    /** A failed persist has ended the stream, and before the first piece of content nothing is persisted. */
    predicate Valid()
      reads this
    {
      && (failed ==> !exit.Going?)
      && (!sawDelta && exit.Going? ==> persisted == [] && textBuffer == "" && toolBuffers == map[])
    }

    constructor (parse: seq<Byte> -> Parsed, late: nat -> bool, fails: nat -> bool)
      ensures Valid() && !failed && buffer == [] && View() == START
      ensures this.parse == parse
    {
      this.parse, this.late, this.fails := parse, late, fails;
      handled, stored := 0, 0;
      buffer, textBuffer, toolBuffers := [], "", map[];
      sawDelta, sawCompleted, usage, exit, persisted, failed := false, false, None, Going, [], false;
    }

    method Persist(p: Persisted) returns (ok: bool)
      modifies this`stored, this`persisted, this`failed
      ensures ok ==> persisted == old(persisted) + [p] && failed == old(failed)
      ensures !ok ==> persisted == old(persisted) && failed
      ensures ok ==> TextOf(persisted) == TextOf(old(persisted)) + (if p.PersistedText? then p.text else "")
      ensures ok ==> CallsOf(persisted) == CallsOf(old(persisted)) + (if p.PersistedCall? then multiset{p.call} else multiset{})
    {
      PersistedNext(persisted, p);
      ok := !fails(stored);
      stored := stored + 1;
      if ok {
        persisted := persisted + [p];
      } else {
        failed := true;
      }
    }

    /** Empty the text buffer into the log. The text leaves the buffer even when the log refuses it. */
    method FlushText()
      modifies this`stored, this`persisted, this`failed, this`textBuffer, this`exit
      ensures textBuffer == ""
      ensures old(failed) ==> failed
      ensures !failed ==> exit == old(exit) && View() == old(View())
      ensures failed && !old(failed) ==> exit.Broken?
      ensures exit == old(exit) || exit.Broken?
    {
      hide TextOf, CallsOf;
      var buffered := textBuffer;
      textBuffer := "";
      ghost var before := TextOf(persisted);
      var ok := Persist(PersistedText(buffered));
      if ok {
        assert TextOf(persisted) + textBuffer == before + buffered;
        assert CallsOf(persisted) == CallsOf(old(persisted));
      }
      if !ok {
        exit := Broken;
      }
    }

    /** Persist the buffered calls, in whatever order the table gives them, until one is refused. */
    method FlushTools()
      modifies this`stored, this`persisted, this`failed, this`toolBuffers, this`exit
      ensures toolBuffers == map[]
      ensures old(failed) ==> failed
      ensures !failed ==> exit == old(exit) && CallsOf(persisted) == CallsOf(old(persisted)) + Flushed(old(toolBuffers))
      ensures !failed ==> TextOf(persisted) == TextOf(old(persisted))
      ensures old(toolBuffers) == map[] ==> persisted == old(persisted) && exit == old(exit) && failed == old(failed)
      ensures failed && !old(failed) ==> exit.Broken?
      ensures exit == old(exit) || exit.Broken?
    {
      hide TextOf, CallsOf, Flushed;
      FlushedNone();
      var pending := toolBuffers;
      toolBuffers := map[];
      while pending != map[]
        invariant toolBuffers == map[] && failed == old(failed)
        invariant exit == old(exit)
        invariant CallsOf(persisted) + Flushed(pending) == CallsOf(old(persisted)) + Flushed(old(toolBuffers))
        invariant TextOf(persisted) == TextOf(old(persisted))
        invariant old(toolBuffers) == map[] ==> pending == map[] && persisted == old(persisted)
        decreases pending.Keys
      {
        var k :| k in pending;
        FlushedRemove(pending, k);
        var ok := Persist(PersistedCall(pending[k]));
        pending := pending - {k};
        if !ok {
          exit := Broken;
          return;
        }
      }
      assert pending == map[] && Flushed(pending) == multiset{};
      assert CallsOf(persisted) + Flushed(pending) == CallsOf(persisted);
    }

    /** Text is buffered until there is enough of it, or it has waited long enough. */
    method HandleText(text: string, isLate: bool) returns (stop: bool)
      modifies this`stored, this`persisted, this`failed, this`textBuffer, this`exit
      ensures old(failed) ==> failed
      ensures !failed ==> exit == old(exit) && !stop && View() == old(View()).(text := old(View()).text + text)
      ensures failed && !old(failed) ==> exit.Broken?
      ensures exit == old(exit) || exit.Broken?
    {
      hide TextOf, CallsOf;
      ghost var before := View().text;
      assert TextOf(persisted) + (textBuffer + text) == before + text;
      textBuffer := textBuffer + text;
      stop := false;
      if |textBuffer| < 4096 && !isLate {
        return;
      }
      FlushText();
      stop := failed;
    }

    /** A delta that is persisted at once. */
    method HandleItem(p: Persisted) returns (stop: bool)
      requires !p.PersistedText?
      modifies this`stored, this`persisted, this`failed, this`exit
      ensures old(failed) ==> failed
      ensures !failed ==> exit == (if p.PersistedAction? then NeedsAction else old(exit))
      ensures !failed ==>
                View() == old(View()).(exit := exit,
                                       calls := if p.PersistedCall? then old(View()).calls + multiset{p.call} else old(View()).calls)
      ensures !failed ==> (stop <==> p.PersistedAction?)
      ensures failed && !old(failed) ==> exit.Broken?
      ensures exit == old(exit) || !exit.Going?
    {
      hide TextOf, CallsOf;
      ghost var text := TextOf(persisted);
      var ok := Persist(p);
      assert ok ==> text + "" == text;
      stop := !ok || p.PersistedAction?;
      if !ok {
        exit := Broken;
      } else if p.PersistedAction? {
        exit := NeedsAction;
        assert CallsOf(persisted) == CallsOf(old(persisted));
      }
    }

    method HandleCompleted()
      modifies this`stored, this`persisted, this`failed, this`toolBuffers, this`exit, this`sawCompleted
      ensures old(failed) ==> failed
      ensures !failed ==> exit == old(exit)
      ensures !failed ==>
                View() == old(View()).(sawCompleted := true, tools := map[],
                                       calls := old(View()).calls + Flushed(old(toolBuffers)))
      ensures old(toolBuffers) == map[] ==> persisted == old(persisted) && toolBuffers == map[]
      ensures failed && !old(failed) ==> exit.Broken?
      ensures exit == old(exit) || exit.Broken?
    {
      hide TextOf, CallsOf, Flushed;
      sawCompleted := true;
      FlushTools();
    }

    /** One delta. `stop` says that the rest of the frame's deltas are not looked at. */
    method HandleDelta(d: Delta) returns (stop: bool)
      requires Valid()
      modifies this
      ensures Valid() && buffer == old(buffer)
      ensures old(failed) ==> failed
      ensures !failed ==> View() == OnDelta(old(View()), d)
      ensures !failed && old(exit).Going? ==> (stop <==> !exit.Going?)
    {
      hide TextOf, CallsOf, Flushed, AddFragment;
      var isLate := late(handled);
      handled := handled + 1;
      sawDelta := sawDelta || IsContent(d);
      stop := false;
      match d {
        case ToolFragment(_, _, _, _) => toolBuffers := AddFragment(toolBuffers, d);
        case TextDelta(text) => stop := HandleText(text, isLate);
        case CompletedDelta => HandleCompleted();
        case UsageDelta(value) => usage := Some(value);
        case WholeCall(call) => stop := HandleItem(PersistedCall(call));
        case RequiresActionDelta => stop := HandleItem(PersistedAction);
      }
    }

    method HandleDeltas(ds: seq<Delta>)
      requires Valid() && !failed && exit.Going?
      modifies this
      ensures Valid() && buffer == old(buffer)
      ensures !failed ==> View() == OnDeltas(old(View()), ds)
    {
      hide View, OnDelta;
      ViewExit();
      for i := 0 to |ds|
        invariant Valid() && buffer == old(buffer)
        invariant !failed ==> exit.Going? && View() == OnDeltas(old(View()), ds[..i])
      {
        ViewExit();
        var stop := HandleDelta(ds[i]);
        ViewExit();
        assert ds[..i + 1][..i] == ds[..i];
        if stop {
          if !failed {
            DeltasStop(old(View()), ds, i + 1);
          }
          return;
        }
      }
      assert ds[..|ds|] == ds;
    }

    lemma ViewExit()
      ensures View().exit == exit
    {
    }

    method HandleFrame(frame: seq<Byte>)
      requires Valid() && !failed && exit.Going?
      modifies this
      ensures Valid() && buffer == old(buffer)
      ensures !failed ==> View() == OnFrame(old(View()), parse(frame))
    {
      hide TextOf, CallsOf, OnDeltas;
      match parse(frame) {
        case Deltas(ds) => HandleDeltas(ds);
        case Malformed => exit := Broken;
      }
    }

    /** A chunk arrives: decode every frame that is now complete. */
    method Feed(chunk: seq<Byte>)
      requires Valid() && !failed && exit.Going?
      modifies this
      ensures Valid()
      ensures !failed ==> Scan(old(View()), old(buffer) + chunk, parse) == (View(), buffer)
    {
      hide TextOf, CallsOf, OnFrame, FindFrameEnd, FirstFrame, Drained;
      buffer := buffer + chunk;
      ghost var whole := buffer;
      while exit.Going? && FindFrameEnd(buffer).Some?
        invariant Valid()
        invariant !failed ==> Scan(View(), buffer, parse) == Scan(old(View()), whole, parse)
        decreases |buffer|
      {
        var frame := FirstFrame(buffer).frame;
        buffer := Drained(buffer);
        HandleFrame(frame);
      }
    }

    method Tick()
      requires Valid() && !failed && exit.Going?
      modifies this
      ensures Valid() && buffer == old(buffer)
      ensures !failed ==> View() == old(View())
    {
      if textBuffer != "" {
        FlushText();
      }
    }
  }

  lemma ChunkBytesNext(inputs: seq<Input>, i: nat)
    requires i < |inputs|
    ensures ChunkBytes(inputs[..i + 1]) == ChunkBytes(inputs[..i]) + (if inputs[i].Chunk? then inputs[i].bytes else [])
  {
    assert inputs[..i + 1][..i] == inputs[..i];
  }

  lemma {:induction false} ChunkBytesMore(inputs: seq<Input>, i: nat, n: nat)
    requires i <= n <= |inputs|
    ensures ChunkBytes(inputs[..i]) <= ChunkBytes(inputs[..n])
    decreases n
  {
    if i < n {
      ChunkBytesMore(inputs, i, n - 1);
      ChunkBytesNext(inputs, n - 1);
    }
  }

  lemma EndsHere(inputs: seq<Input>, i: nat)
    requires i <= |inputs| && (i < |inputs| ==> Ends(inputs[i]))
    requires forall j :: 0 <= j < i ==> !Ends(inputs[j])
    ensures Received(inputs) == ChunkBytes(inputs[..i])
    ensures LastInput(inputs) == if i < |inputs| then Some(inputs[i]) else None
  {
    assert EndIndex(inputs) == i;
  }

  lemma EndsLater(inputs: seq<Input>, i: nat)
    requires i <= |inputs| && forall j :: 0 <= j < i ==> !Ends(inputs[j])
    ensures ChunkBytes(inputs[..i]) <= Received(inputs)
  {
    assert EndIndex(inputs) >= i;
    ChunkBytesMore(inputs, i, EndIndex(inputs));
  }

  /** Bytes after the end of the stream change nothing. */
  lemma ScanStops(a: seq<Byte>, b: seq<Byte>, parse: seq<Byte> -> Parsed)
    requires a <= b && !Scan(START, a, parse).0.exit.Going?
    ensures Scan(START, b, parse).0 == Scan(START, a, parse).0
  {
    assert b == a + b[|a|..];
    ScanSplit(START, a, b[|a|..], parse);
  }

  /** The select loop, from the first byte to the verdict. `inputs` is what it receives, in order; when they run
      out the provider has closed the stream. */
  method Decode(inputs: seq<Input>, parse: seq<Byte> -> Parsed, late: nat -> bool, fails: nat -> bool)
    returns (verdict: Verdict, persisted: seq<Persisted>, failed: bool)
    ensures var whole := OneShot(Received(inputs), parse);
            !failed ==>
              && verdict == VerdictOf(whole, LastInput(inputs))
              && CallsOf(persisted) == whole.calls
              && (if verdict.WasCancelled? || verdict.WasInterrupted? then TextOf(persisted) <= whole.text
                  else TextOf(persisted) == whole.text)
    ensures !failed && verdict == Failed(true) ==> persisted == []
  {
    hide TextOf, CallsOf, OneShot, Scan, Received, LastInput, ChunkBytes;
    var decoder := new ResponseDecoder(parse, late, fails);
    ScanNothing(parse);
    for i := 0 to |inputs|
      invariant decoder.Valid() && !decoder.failed && decoder.exit.Going?
      invariant decoder.parse == parse
      invariant forall j :: 0 <= j < i ==> !Ends(inputs[j])
      invariant Scan(START, ChunkBytes(inputs[..i]), parse) == (decoder.View(), decoder.buffer)
    {
      var input := inputs[i];
      if Ends(input) {
        EndsHere(inputs, i);
        ScanIsOneShot(Received(inputs), parse);
        if !input.ReadError? {
          return if input.Cancel? then WasCancelled else WasInterrupted, decoder.persisted, decoder.failed;
        }
        verdict := Failed(!decoder.sawDelta);
        if decoder.textBuffer != "" {
          decoder.FlushText();
        }
        return verdict, decoder.persisted, decoder.failed;
      }
      ChunkBytesNext(inputs, i);
      if input.Chunk? {
        ScanSplit(START, ChunkBytes(inputs[..i]), input.bytes, parse);
        decoder.Feed(input.bytes);
      } else {
        assert ChunkBytes(inputs[..i]) + [] == ChunkBytes(inputs[..i]);
        decoder.Tick();
      }
      if !decoder.exit.Going? {
        verdict := if decoder.exit.NeedsAction? then ActionRequired else Failed(false);
        if !decoder.failed {
          EndsLater(inputs, i + 1);
          ScanStops(ChunkBytes(inputs[..i + 1]), Received(inputs), parse);
          ScanIsOneShot(Received(inputs), parse);
        }
        if decoder.textBuffer != "" {
          decoder.FlushText();
        }
        return verdict, decoder.persisted, decoder.failed;
      }
    }
    EndsHere(inputs, |inputs|);
    ScanIsOneShot(Received(inputs), parse);
    verdict := if decoder.sawCompleted then DoneWith(decoder.usage) else Failed(false);
    if decoder.textBuffer != "" {
      decoder.FlushText();
    }
    return verdict, decoder.persisted, decoder.failed;
  }

  lemma ScanNothing(parse: seq<Byte> -> Parsed)
    ensures ChunkBytes([]) == []
    ensures Scan(START, [], parse) == (START, [])
  {
  }

  lemma ScanIsOneShot(bytes: seq<Byte>, parse: seq<Byte> -> Parsed)
    ensures OneShot(bytes, parse) == Scan(START, bytes, parse).0
  {
    ScanIsFrames(START, bytes, parse);
  }

  lemma FlushedNone()
    ensures Flushed(map[]) == multiset{}
  {
  }

  /** Once the stream has ended, later deltas of the frame change nothing. */
  lemma {:induction false} DeltasStop(c: Core, ds: seq<Delta>, i: nat)
    requires i <= |ds| && !OnDeltas(c, ds[..i]).exit.Going?
    ensures OnDeltas(c, ds) == OnDeltas(c, ds[..i])
    decreases |ds|
  {
    hide OnDelta;
    if i == |ds| {
      assert ds[..i] == ds;
    } else {
      var n := |ds| - 1;
      assert ds[..n][..i] == ds[..i];
      DeltasStop(c, ds[..n], i);
    }
  }
}
