/** Building the request for the provider: merging body layers (piqo-provider/src/body.rs) and filling the gaps with
    the transcript (`build_body` in piqo-server/src/supervisor.rs). */
module RequestBody {
  import opened Prelude
  import opened Events
  import opened Session

  // ---------------------------------------------------------------- layers

  datatype Merge = Merged(fields: map<string, Json>) | NotAnObject(index: nat)

  /** Later layers win. */
  function Layered(layers: seq<map<string, Json>>): map<string, Json>
    decreases |layers|
  {
    if layers == [] then map[] else Layered(layers[..|layers| - 1]) + layers[|layers| - 1]
  }

  predicate AllObjects(layers: seq<Json>) { forall i :: 0 <= i < |layers| ==> layers[i].Object? }

  function FieldsOf(layers: seq<Json>): seq<map<string, Json>>
    requires AllObjects(layers)
  {
    seq(|layers|, i requires 0 <= i < |layers| => layers[i].fields)
  }

  method MergeRequestBodies(layers: seq<Json>) returns (r: Merge)
    ensures r.Merged? <==> AllObjects(layers)
    ensures r.Merged? ==> r.fields == Layered(FieldsOf(layers))
    ensures r.NotAnObject? ==> r.index < |layers| && !layers[r.index].Object? && AllObjects(layers[..r.index])
  {
    var merged: map<string, Json> := map[];
    for i := 0 to |layers|
      invariant AllObjects(layers[..i])
      invariant merged == Layered(FieldsOf(layers[..i]))
    {
      if !layers[i].Object? {
        return NotAnObject(i);
      }
      var fields := layers[i].fields;
      ghost var before := merged;
      var keys := fields.Keys;
      while keys != {}
        invariant keys <= fields.Keys
        invariant merged == before + (fields - keys)
        decreases keys
      {
        var key :| key in keys;
        merged := merged[key := fields[key]];
        keys := keys - {key};
      }
      assert fields - {} == fields;
      assert FieldsOf(layers[..i + 1])[..i] == FieldsOf(layers[..i]);
    }
    assert layers[..|layers|] == layers;
    return Merged(merged);
  }

  /** A key holds the value of the last layer that has it, whatever that value is; a key no layer has is absent. */
  lemma {:induction false} LastLayerWins(layers: seq<map<string, Json>>, key: string)
    ensures key in Layered(layers) <==> exists i :: 0 <= i < |layers| && key in layers[i]
    ensures forall i :: 0 <= i < |layers| && key in layers[i] && (forall j :: i < j < |layers| ==> key !in layers[j]) ==>
              key in Layered(layers) && Layered(layers)[key] == layers[i][key]
    decreases |layers|
  {
    if layers != [] {
      LastLayerWins(layers[..|layers| - 1], key);
    }
  }

  /** Merging groups of layers and then the results is merging all layers. */
  lemma {:induction false} LayeredGroups(a: seq<map<string, Json>>, b: seq<map<string, Json>>)
    ensures Layered(a + b) == Layered(a) + Layered(b)
    ensures Layered(a + b) == Layered([Layered(a), Layered(b)])
    decreases |b|
  {
    LayeredPair(Layered(a), Layered(b));
    if b == [] {
      assert a + b == a;
      assert Layered(a) + map[] == Layered(a);
    } else {
      var n := |b| - 1;
      LayeredGroups(a, b[..n]);
      LayeredLast(a + b[..n], b[n]);
      LayeredLast(b[..n], b[n]);
      assert a + b == (a + b[..n]) + [b[n]] && b == b[..n] + [b[n]];
      MapSumAssociates(Layered(a), Layered(b[..n]), b[n]);
    }
  }

  lemma LayeredLast(a: seq<map<string, Json>>, x: map<string, Json>)
    ensures Layered(a + [x]) == Layered(a) + x
  {
    assert (a + [x])[..|a|] == a;
  }

  lemma MapSumAssociates(x: map<string, Json>, y: map<string, Json>, z: map<string, Json>)
    ensures (x + y) + z == x + (y + z)
  {
  }

  lemma LayeredPair(x: map<string, Json>, y: map<string, Json>)
    ensures Layered([x, y]) == x + y
  {
    LayeredLast([], x);
    LayeredLast([x], y);
    assert [] + [x] == [x] && [x] + [y] == [x, y];
    assert map[] + x == x;
  }

  /** The bodies a request draws on: a missing model, agent or variant has none. */
  datatype Sources = Sources(
    defaults: Json,
    model: Option<Json>,
    markdownAgent: Option<Json>,
    tomlAgent: Option<Json>,
    variant: Option<Json>,
    request: Json)

  /** What is not an object counts as an empty one. */
  function Normalized(body: Json): (r: Json)
    ensures r.Object?
  {
    if body.Object? then body else Object(map[])
  }

  function Layer(body: Option<Json>): seq<Json> { if body.Some? then [Normalized(body.value)] else [] }

  /** From lowest to highest precedence. */
  function BodyLayers(s: Sources): seq<Json> {
    [Normalized(s.defaults)] + Layer(s.model) + Layer(s.markdownAgent) + Layer(s.tomlAgent) + Layer(s.variant) + [Normalized(s.request)]
  }

  function FieldsOrNone(body: Option<Json>): map<string, Json> {
    if body.Some? then Normalized(body.value).fields else map[]
  }

  lemma LayeredOver(a: seq<Json>, b: seq<Json>)
    requires AllObjects(a) && AllObjects(b)
    ensures AllObjects(a + b) && Layered(FieldsOf(a + b)) == Layered(FieldsOf(a)) + Layered(FieldsOf(b))
  {
    assert FieldsOf(a + b) == FieldsOf(a) + FieldsOf(b);
    LayeredGroups(FieldsOf(a), FieldsOf(b));
  }

  lemma LayerFields(body: Option<Json>)
    ensures AllObjects(Layer(body)) && Layered(FieldsOf(Layer(body))) == FieldsOrNone(body)
  {
    if body.Some? {
      assert FieldsOf(Layer(body)) == [FieldsOrNone(body)];
      LayeredLast([], FieldsOrNone(body));
      assert [] + [FieldsOrNone(body)] == [FieldsOrNone(body)] && map[] + FieldsOrNone(body) == FieldsOrNone(body);
    }
  }

  /** The layers are always objects, so the merge never fails, and the request outranks the variant, the variant the
      agent's TOML, that its Markdown, that the model, and that the defaults. */
  lemma LayerPrecedence(s: Sources)
    ensures AllObjects(BodyLayers(s))
    ensures Layered(FieldsOf(BodyLayers(s))) ==
            Normalized(s.defaults).fields + FieldsOrNone(s.model) + FieldsOrNone(s.markdownAgent) + FieldsOrNone(s.tomlAgent)
            + FieldsOrNone(s.variant) + Normalized(s.request).fields
  {
    hide Layered, FieldsOf, Layer, FieldsOrNone, AllObjects;
    var d, r := Some(s.defaults), Some(s.request);
    LayerFields(d);
    LayerFields(s.model);
    LayerFields(s.markdownAgent);
    LayerFields(s.tomlAgent);
    LayerFields(s.variant);
    LayerFields(r);
    LayeredOver(Layer(d), Layer(s.model));
    LayeredOver(Layer(d) + Layer(s.model), Layer(s.markdownAgent));
    LayeredOver(Layer(d) + Layer(s.model) + Layer(s.markdownAgent), Layer(s.tomlAgent));
    LayeredOver(Layer(d) + Layer(s.model) + Layer(s.markdownAgent) + Layer(s.tomlAgent), Layer(s.variant));
    LayeredOver(Layer(d) + Layer(s.model) + Layer(s.markdownAgent) + Layer(s.tomlAgent) + Layer(s.variant), Layer(r));
    EndLayers(s);
  }

  lemma EndLayers(s: Sources)
    ensures [Normalized(s.defaults)] == Layer(Some(s.defaults)) && [Normalized(s.request)] == Layer(Some(s.request))
    ensures FieldsOrNone(Some(s.defaults)) == Normalized(s.defaults).fields
    ensures FieldsOrNone(Some(s.request)) == Normalized(s.request).fields
  {
  }

  // ---------------------------------------------------------------- gaps

  datatype Protocol = ChatCompletions | Responses

  function Insert(body: map<string, Json>, key: string, value: Json): map<string, Json> {
    if key in body then body else body[key := value]
  }

  function TranscriptKey(protocol: Protocol): string {
    match protocol case ChatCompletions => "messages" case Responses => "input"
  }

  /** The request body: the merged layers, with what they leave open filled in. */
  function Filled(merged: map<string, Json>, model: string, tools: seq<Json>, transcript: Json, protocol: Protocol): map<string, Json> {
    var body := Insert(Insert(merged, "model", Text(model)), "stream", Bool(true));
    var body := if tools != [] then Insert(body, "tools", Array(tools)) else body;
    Insert(body, TranscriptKey(protocol), transcript)
  }

  /** Nothing a layer says is changed, and nothing is added but the model, the stream flag, the tools and the
      transcript. */
  lemma FilledPreserves(merged: map<string, Json>, model: string, tools: seq<Json>, transcript: Json, protocol: Protocol)
    ensures var body := Filled(merged, model, tools, transcript, protocol);
            && (forall k :: k in merged ==> k in body && body[k] == merged[k])
            && body.Keys == merged.Keys + {"model", "stream", TranscriptKey(protocol)} + (if tools != [] then {"tools"} else {})
            && ("model" !in merged ==> body["model"] == Text(model))
            && ("stream" !in merged ==> body["stream"] == Bool(true))
            && ("tools" !in merged && tools != [] ==> body["tools"] == Array(tools))
            && (TranscriptKey(protocol) !in merged ==> body[TranscriptKey(protocol)] == transcript)
  {
    hide Insert;
    var one := Insert(merged, "model", Text(model));
    var two := Insert(one, "stream", Bool(true));
    var three := if tools != [] then Insert(two, "tools", Array(tools)) else two;
    InsertMeaning(merged, "model", Text(model));
    InsertMeaning(one, "stream", Bool(true));
    InsertMeaning(two, "tools", Array(tools));
    InsertMeaning(three, TranscriptKey(protocol), transcript);
    NamesDiffer(protocol);
  }

  lemma InsertMeaning(body: map<string, Json>, key: string, value: Json)
    ensures var after := Insert(body, key, value);
            && after.Keys == body.Keys + {key}
            && (forall k :: k in body ==> after[k] == body[k])
            && (key !in body ==> after[key] == value)
  {
  }

  lemma NamesDiffer(protocol: Protocol)
    ensures "model" != "stream" && "model" != "tools" && "stream" != "tools"
    ensures TranscriptKey(protocol) !in {"model", "stream", "tools"}
  {
    assert "messages"[1] != "model"[1];
  }

  // ---------------------------------------------------------------- the transcript of a Chat request

  /** Where an entry comes from: the agent's instructions, the summary of an artifact, or a closed message. */
  datatype Origin = Instructions | Summary | FromMessage(message: Message)

  datatype Entry = Entry(origin: Origin, toolCalls: seq<ToolCall>)

  predicate After(m: Message, end: Option<EventId>) { end.None? || m.lastEventId > end.value }

  function ClosedMessages(ms: seq<Message>): seq<Message> { Filter(ms, (m: Message) => m.Closed()) }

  function Visible(closed: seq<Message>, end: Option<EventId>): seq<Message> { Filter(closed, (x: Message) => After(x, end)) }

  /** What stands before the messages: instructions, then the summary of the active artifact. */
  function Preamble(instructions: bool, end: Option<EventId>): seq<Entry> {
    (if instructions then [Entry(Instructions, [])] else []) + (if end.Some? then [Entry(Summary, [])] else [])
  }

  function Plain(ms: seq<Message>): seq<Entry> {
    seq(|ms|, i requires 0 <= i < |ms| => Entry(FromMessage(ms[i]), []))
  }

  /** A call of a queue: the key of its run and its key there. */
  datatype Place = Place(run: Id, call: Id)

  predicate IsCall(q: Queue, x: Place) { x.run in q.runs && x.call in q.runs[x.run].toolCalls }

  function CallAt(q: Queue, x: Place): ToolCall
    requires IsCall(q, x)
  {
    q.runs[x.run].toolCalls[x.call]
  }

  /** Run by run, each run's calls in key order. */
  function PlacesIn(q: Queue, keys: seq<Id>): (r: seq<Place>)
    requires forall k :: k in keys ==> k in q.runs
    ensures forall x :: x in r <==> x.run in keys && IsCall(q, x)
    decreases |keys|
  {
    if keys == [] then []
    else
      var n := |keys| - 1;
      assert forall k :: k in keys <==> k in keys[..n] || k == keys[n];
      PlacesIn(q, keys[..n]) + OwnPlaces(q, keys[n])
  }

  function OwnPlaces(q: Queue, r: Id): (places: seq<Place>)
    requires r in q.runs
    ensures forall x :: x in places <==> x.run == r && IsCall(q, x)
  {
    var keys := KeysInOrder(q.runs[r].toolCalls.Keys);
    var places := seq(|keys|, i requires 0 <= i < |keys| => Place(r, keys[i]));
    assert forall i :: 0 <= i < |keys| ==> keys[i] in keys && places[i] == Place(r, keys[i]);
    places
  }

  function PlacesOf(q: Queue): (r: seq<Place>)
    ensures forall x :: x in r <==> IsCall(q, x)
  {
    PlacesIn(q, KeysInOrder(q.runs.Keys))
  }

  /** All calls of a queue. */
  function CallsOf(q: Queue): seq<ToolCall> {
    var places := PlacesOf(q);
    seq(|places|, i requires 0 <= i < |places| => assert places[i] in places; CallAt(q, places[i]))
  }

  /** A call is left out when the message that emitted it lies in the artifact's range. */
  predicate CallVisible(ms: seq<Message>, call: ToolCall, end: Option<EventId>) {
    var i := IndexOf(ms, call.assistantMessageId);
    end.None? || i == |ms| || After(ms[i], end)
  }

  function EmittedBy(ms: seq<Message>, calls: seq<ToolCall>, end: Option<EventId>, m: Message): seq<ToolCall> {
    Filter(calls, c => CallVisible(ms, c, end) && c.assistantMessageId == m.messageId)
  }

  /** The entries before calls are placed. */
  function Entries(instructions: bool, ms: seq<Message>, end: Option<EventId>): seq<Entry> {
    Preamble(instructions, end) + Plain(Visible(ClosedMessages(ms), end))
  }

  function Standing(o: Origin): nat { match o case Instructions => 0 case Summary => 1 case FromMessage(m) => 2 + m.firstEventId }

  /** The instructions if there are any, then the summary if there is an artifact, then exactly the messages that were completed or
      interrupted and last touched after its end, in the order in which they were begun; each once. */
  lemma EntriesAre(instructions: bool, ms: seq<Message>, end: Option<EventId>)
    requires forall i, j :: 0 <= i < j < |ms| ==> ms[i].firstEventId < ms[j].firstEventId
    ensures var es := Entries(instructions, ms, end);
            && (forall i, j :: 0 <= i < j < |es| ==> Standing(es[i].origin) < Standing(es[j].origin))
            && (forall o :: Entry(o, []) in es <==>
                  match o
                  case Instructions => instructions
                  case Summary => end.Some?
                  case FromMessage(m) => m in ms && (m.completed || m.interrupted) && (end.Some? ==> m.lastEventId > end.value))
  {
    var visible := Visible(ClosedMessages(ms), end);
    VisibleByFirst(ms, end);
    hide Visible, ClosedMessages;
    LaidOut(instructions, end, visible);
    InStanding(instructions, end, visible);
  }

  lemma VisibleByFirst(ms: seq<Message>, end: Option<EventId>)
    requires forall i, j :: 0 <= i < j < |ms| ==> ms[i].firstEventId < ms[j].firstEventId
    ensures var visible := Visible(ClosedMessages(ms), end);
            && (forall i, j :: 0 <= i < j < |visible| ==> visible[i].firstEventId < visible[j].firstEventId)
            && (forall m :: m in visible <==> m in ms && (m.completed || m.interrupted) && (end.Some? ==> m.lastEventId > end.value))
  {
    FilterByFirst(ms, (m: Message) => m.Closed());
    FilterByFirst(ClosedMessages(ms), (x: Message) => After(x, end));
    FilterKeeps(ms, (m: Message) => m.Closed());
    FilterKeeps(ClosedMessages(ms), (x: Message) => After(x, end));
    hide Filter;
  }

  lemma LaidOut(instructions: bool, end: Option<EventId>, visible: seq<Message>)
    ensures var es := Preamble(instructions, end) + Plain(visible);
            forall o :: Entry(o, []) in es <==>
              match o
              case Instructions => instructions
              case Summary => end.Some?
              case FromMessage(m) => m in visible
  {
    var es := Preamble(instructions, end) + Plain(visible);
    var n := |Preamble(instructions, end)|;
    assert forall i :: n <= i < |es| ==> es[i] == Entry(FromMessage(visible[i - n]), []);
    forall m | m in visible ensures Entry(FromMessage(m), []) in es {
      var i :| 0 <= i < |visible| && visible[i] == m;
      assert es[n + i] == Entry(FromMessage(m), []);
    }
    if instructions {
      assert es[0] == Entry(Instructions, []);
    }
    if end.Some? {
      assert es[n - 1] == Entry(Summary, []);
    }
  }

  lemma InStanding(instructions: bool, end: Option<EventId>, visible: seq<Message>)
    requires forall i, j :: 0 <= i < j < |visible| ==> visible[i].firstEventId < visible[j].firstEventId
    ensures var es := Preamble(instructions, end) + Plain(visible);
            forall i, j :: 0 <= i < j < |es| ==> Standing(es[i].origin) < Standing(es[j].origin)
  {
    var es := Preamble(instructions, end) + Plain(visible);
    var n := |Preamble(instructions, end)|;
    assert forall i :: n <= i < |es| ==> es[i].origin == FromMessage(visible[i - n]);
    assert forall i :: 0 <= i < n ==> es[i] == Preamble(instructions, end)[i];
  }

  lemma {:induction false} FilterByFirst(ms: seq<Message>, keep: Message -> bool)
    requires forall i, j :: 0 <= i < j < |ms| ==> ms[i].firstEventId < ms[j].firstEventId
    ensures forall i, j :: 0 <= i < j < |Filter(ms, keep)| ==> Filter(ms, keep)[i].firstEventId < Filter(ms, keep)[j].firstEventId
    decreases |ms|
  {
    if ms != [] {
      var n := |ms| - 1;
      FilterByFirst(ms[..n], keep);
      FilterKeeps(ms[..n], keep);
      var before := Filter(ms[..n], keep);
      forall i | 0 <= i < |before| ensures before[i].firstEventId < ms[n].firstEventId {
        assert before[i] in ms[..n];
      }
    }
  }

  // Which calls a list holds, how often, and in which order.

  predicate Ahead(x: Place, y: Place) { Before(x.run, y.run) || (x.run == y.run && Before(x.call, y.call)) }

  /** The list holds the calls at some places, which come in key order of run and then call. */
  predicate Ordered(q: Queue, list: seq<ToolCall>, places: seq<Place>) {
    && |places| == |list|
    && (forall i :: 0 <= i < |places| ==> IsCall(q, places[i]) && list[i] == CallAt(q, places[i]))
    && (forall i, j :: 0 <= i < j < |places| ==> Ahead(places[i], places[j]))
  }

  /** ... and these are exactly the places of the calls that are wanted. */
  ghost predicate Listed(q: Queue, list: seq<ToolCall>, wanted: ToolCall -> bool, places: seq<Place>) {
    Ordered(q, list, places) && forall x :: x in places <==> IsCall(q, x) && wanted(CallAt(q, x))
  }

  ghost predicate ListsExactly(q: Queue, list: seq<ToolCall>, wanted: ToolCall -> bool) {
    exists places :: Listed(q, list, wanted, places)
  }

  predicate InOrder(places: seq<Place>) { forall i, j :: 0 <= i < j < |places| ==> Ahead(places[i], places[j]) }

  lemma OwnInOrder(q: Queue, r: Id)
    requires r in q.runs
    ensures InOrder(OwnPlaces(q, r))
    ensures |OwnPlaces(q, r)| == |q.runs[r].toolCalls|
  {
    hide KeysInOrder, Before;
    KeysAreCounted(q.runs[r].toolCalls.Keys);
    KeysCount(q.runs[r].toolCalls);
  }

  lemma InOrderConcat(x: seq<Place>, y: seq<Place>)
    requires InOrder(x) && InOrder(y)
    requires forall a, b :: a in x && b in y ==> Ahead(a, b)
    ensures InOrder(x + y)
  {
    hide Ahead;
  }

  lemma {:induction false} PlacesInOrder(q: Queue, keys: seq<Id>)
    requires forall k :: k in keys ==> k in q.runs
    requires forall i, j :: 0 <= i < j < |keys| ==> Before(keys[i], keys[j])
    ensures InOrder(PlacesIn(q, keys))
    decreases |keys|
  {
    hide InOrder, OwnPlaces, Before;
    if keys == [] {
      NoneInOrder();
    } else {
      var n := |keys| - 1;
      PlacesInOrder(q, keys[..n]);
      OwnInOrder(q, keys[n]);
      forall a, b | a in PlacesIn(q, keys[..n]) && b in OwnPlaces(q, keys[n]) ensures Ahead(a, b) {
        var m :| 0 <= m < n && keys[m] == a.run;
      }
      InOrderConcat(PlacesIn(q, keys[..n]), OwnPlaces(q, keys[n]));
    }
  }

  lemma NoneInOrder()
    ensures InOrder([])
  {
  }

  /** All calls of a queue are listed, each exactly once, by run key and then by call key. */
  lemma CallsAreListed(q: Queue)
    ensures InOrder(PlacesOf(q))
    ensures ListsExactly(q, CallsOf(q), c => true)
  {
    hide Before, PlacesIn, Ahead, KeysInOrder;
    PlacesInOrder(q, KeysInOrder(q.runs.Keys));
    assert Listed(q, CallsOf(q), c => true, PlacesOf(q));
  }

  lemma OrderedNone(q: Queue)
    ensures Ordered(q, [], [])
  {
  }

  lemma OrderedConcat(q: Queue, a: seq<ToolCall>, b: seq<ToolCall>, x: seq<Place>, y: seq<Place>)
    requires Ordered(q, a, x) && Ordered(q, b, y)
    requires forall i, j :: 0 <= i < |x| && 0 <= j < |y| ==> Ahead(x[i], y[j])
    ensures Ordered(q, a + b, x + y)
  {
    hide Ahead;
  }

  /** They are exactly the calls of the runs. */
  lemma CallsAre(q: Queue)
    ensures forall c :: c in CallsOf(q) <==> exists r, d :: r in q.runs && d in q.runs[r].toolCalls && q.runs[r].toolCalls[d] == c
  {
    CallsAreListed(q);
    hide CallsOf, Ahead;
    var places: seq<Place> :| Listed(q, CallsOf(q), c => true, places);
    forall r, d | r in q.runs && d in q.runs[r].toolCalls ensures q.runs[r].toolCalls[d] in CallsOf(q) {
      assert Place(r, d) in places;
    }
    forall c | c in CallsOf(q) ensures exists r, d :: r in q.runs && d in q.runs[r].toolCalls && q.runs[r].toolCalls[d] == c {
      var i :| 0 <= i < |CallsOf(q)| && CallsOf(q)[i] == c;
      assert places[i].call in q.runs[places[i].run].toolCalls;
    }
  }

  lemma OrderedLength(q: Queue, list: seq<ToolCall>, places: seq<Place>)
    requires Ordered(q, list, places)
    ensures |places| == |list|
  {
  }

  lemma OrderedLast(q: Queue, list: seq<ToolCall>, places: seq<Place>)
    requires Ordered(q, list, places) && list != []
    ensures var n := |list| - 1;
            && |places| == |list| && Ordered(q, list[..n], places[..n])
            && IsCall(q, places[n]) && list[n] == CallAt(q, places[n]) && Ordered(q, [list[n]], [places[n]])
            && forall x :: x in places[..n] ==> Ahead(x, places[n])
  {
    hide Ahead;
  }

  lemma {:induction false} FilterOrdered(q: Queue, list: seq<ToolCall>, wanted: ToolCall -> bool, places: seq<Place>) returns (kept: seq<Place>)
    requires Ordered(q, list, places)
    ensures Ordered(q, Filter(list, wanted), kept)
    ensures forall x :: x in kept <==> x in places && IsCall(q, x) && wanted(CallAt(q, x))
    decreases |list|
  {
    hide Ordered, Ahead;
    OrderedNone(q);
    if list == [] {
      kept := places;
      assert places == [] by { OrderedLength(q, list, places); }
    } else {
      var n := |list| - 1;
      OrderedLast(q, list, places);
      var before := FilterOrdered(q, list[..n], wanted, places[..n]);
      assert places == places[..n] + [places[n]];
      if wanted(list[n]) {
        forall i, j | 0 <= i < |before| && 0 <= j < 1 ensures Ahead(before[i], [places[n]][j]) {
          assert before[i] in before;
        }
        OrderedConcat(q, Filter(list[..n], wanted), [list[n]], before, [places[n]]);
        kept := before + [places[n]];
      } else {
        kept := before;
        assert Filter(list, wanted) == Filter(list[..n], wanted);
      }
    }
  }

  /** The calls put on the transcript entry of a message are exactly the visible calls that name it, each once, by run key and
      then by call key. */
  lemma EmittedAreListed(ms: seq<Message>, q: Queue, end: Option<EventId>, m: Message)
    ensures ListsExactly(q, EmittedBy(ms, CallsOf(q), end, m), c => CallVisible(ms, c, end) && c.assistantMessageId == m.messageId)
  {
    hide Ordered, CallsOf, CallVisible;
    CallsAreListed(q);
    var places: seq<Place> :| Listed(q, CallsOf(q), c => true, places);
    var wanted := (c: ToolCall) => CallVisible(ms, c, end) && c.assistantMessageId == m.messageId;
    var kept := FilterOrdered(q, CallsOf(q), wanted, places);
    assert Listed(q, Filter(CallsOf(q), wanted), wanted, kept);
  }

  /** The number of all calls, run by run. */
  function CallCount(runs: map<Id, Run>): nat
    decreases runs.Keys
  {
    if runs == map[] then 0
    else
      var r := First(runs.Keys);
      |runs[r].toolCalls| + CallCount(runs - {r})
  }

  lemma {:induction false} KeysAreCounted(keys: set<Id>)
    ensures |KeysInOrder(keys)| == |keys|
    decreases |keys|
  {
    if keys != {} {
      KeysAreCounted(keys - {First(keys)});
    }
  }

  lemma {:induction false} PlacesFront(q: Queue, rest: Queue, k: Id, keys: seq<Id>)
    requires k in q.runs && forall x :: x in keys ==> x in q.runs && x in rest.runs && q.runs[x] == rest.runs[x]
    ensures PlacesIn(q, [k] + keys) == OwnPlaces(q, k) + PlacesIn(rest, keys)
    decreases |keys|
  {
    hide OwnPlaces;
    var all := [k] + keys;
    var n := |all| - 1;
    if keys == [] {
      assert all[..n] == [];
      assert PlacesIn(q, all) == [] + OwnPlaces(q, k);
    } else {
      PlacesFront(q, rest, k, keys[..|keys| - 1]);
      assert all[..n] == [k] + keys[..|keys| - 1];
      SameOwn(q, rest, all[n]);
    }
  }

  lemma SameOwn(q: Queue, rest: Queue, k: Id)
    requires k in q.runs && k in rest.runs && q.runs[k] == rest.runs[k]
    ensures OwnPlaces(q, k) == OwnPlaces(rest, k)
  {
    hide KeysInOrder;
  }

  /** There are as many as the runs have calls. */
  lemma {:induction false} CallsAreCounted(q: Queue)
    ensures |CallsOf(q)| == CallCount(q.runs)
    decreases q.runs.Keys
  {
    hide PlacesIn, OwnPlaces;
    if q.runs == map[] {
      assert |CallsOf(q)| == 0 by { NoPlaces(q); }
    } else {
      var r := First(q.runs.Keys);
      var rest := Queue(q.runs - {r}, q.paused);
      CallsAreCounted(rest);
      assert rest.runs.Keys == q.runs.Keys - {r};
      PlacesFront(q, rest, r, KeysInOrder(rest.runs.Keys));
      OwnInOrder(q, r);
    }
  }

  lemma NoPlaces(q: Queue)
    requires q.runs == map[]
    ensures PlacesOf(q) == []
  {
  }

  datatype Attached = Attached(transcript: seq<Entry>) | OutOfRange(index: nat)

  /** The loop that puts each assistant message's calls on the transcript. It finds an entry by counting all closed
      messages, and an index past the end aborts the request. */
  method AttachCalls(ms: seq<Message>, calls: seq<ToolCall>, end: Option<EventId>, instructions: bool) returns (r: Attached)
    ensures var closed := ClosedMessages(ms);
            var entries := Entries(instructions, ms, end);
            var offset := Minus(|entries|, |closed|);
            && (r.OutOfRange? <==> exists i :: 0 <= i < |closed| && Carries(ms, calls, end, closed[i]) && offset + i >= |entries|)
            && (r.Attached? ==> r.transcript == Placed(entries, ms, closed, calls, end, offset))
  {
    hide Filter, EmittedBy, Entries, ClosedMessages;
    var closed := ClosedMessages(ms);
    var entries := Entries(instructions, ms, end);
    var offset := Minus(|entries|, |closed|);
    var transcript := entries;
    for index := 0 to |closed|
      invariant |transcript| == |entries|
      invariant forall i :: 0 <= i < index && Carries(ms, calls, end, closed[i]) ==> offset + i < |entries|
      invariant forall k :: 0 <= k < |entries| ==>
                  transcript[k] == if offset <= k < offset + index && Carries(ms, calls, end, closed[k - offset])
                                   then entries[k].(toolCalls := EmittedBy(ms, calls, end, closed[k - offset])) else entries[k]
    {
      var message := closed[index];
      if message.role == AssistantRole {
        var emitted := EmittedBy(ms, calls, end, message);
        if emitted != [] {
          if offset + index >= |transcript| {
            return OutOfRange(offset + index);
          }
          transcript := transcript[offset + index := transcript[offset + index].(toolCalls := emitted)];
        }
      }
    }
    return Attached(transcript);
  }

  predicate Carries(ms: seq<Message>, calls: seq<ToolCall>, end: Option<EventId>, m: Message) {
    m.role == AssistantRole && EmittedBy(ms, calls, end, m) != []
  }

  /** Entry k with the calls of closed message k - offset. */
  function Placed(entries: seq<Entry>, ms: seq<Message>, closed: seq<Message>, calls: seq<ToolCall>, end: Option<EventId>, offset: nat): seq<Entry> {
    seq(|entries|, k requires 0 <= k < |entries| =>
      if offset <= k < offset + |closed| && Carries(ms, calls, end, closed[k - offset])
      then entries[k].(toolCalls := EmittedBy(ms, calls, end, closed[k - offset])) else entries[k])
  }

  /** Every entry made from a message carries exactly the calls that message emitted, and no other entry carries any. */
  predicate Aligned(transcript: seq<Entry>, ms: seq<Message>, calls: seq<ToolCall>, end: Option<EventId>) {
    forall k :: 0 <= k < |transcript| ==>
      transcript[k].toolCalls ==
      if transcript[k].origin.FromMessage? && transcript[k].origin.message.role == AssistantRole
      then EmittedBy(ms, calls, end, transcript[k].origin.message) else []
  }

  // ---------------------------------------------------------------- when calls and messages line up

  predicate UniqueIds(ms: seq<Message>) { forall i, j :: 0 <= i < j < |ms| ==> ms[i].messageId != ms[j].messageId }

  /** Messages were closed in the order in which they stand. */
  predicate ClosedInOrder(closed: seq<Message>) {
    forall i, j :: 0 <= i < j < |closed| ==> closed[i].lastEventId < closed[j].lastEventId
  }

  /** `visible` are the last messages of `closed`, and exactly those after the artifact. */
  ghost predicate Tail(closed: seq<Message>, visible: seq<Message>, end: Option<EventId>) {
    && |visible| <= |closed|
    && visible == closed[|closed| - |visible|..]
    && (forall i :: 0 <= i < |closed| ==> (After(closed[i], end) <==> i >= |closed| - |visible|))
  }

  lemma TailGrows(closed: seq<Message>, visible: seq<Message>, m: Message, end: Option<EventId>)
    requires Tail(closed, visible, end) && After(m, end)
    ensures Tail(closed + [m], visible + [m], end)
  {
    var all := closed + [m];
    assert all[|closed| - |visible|..] == closed[|closed| - |visible|..] + [m];
  }

  lemma TailStays(closed: seq<Message>, visible: seq<Message>, m: Message, end: Option<EventId>)
    requires Tail(closed, visible, end) && !After(m, end) && ClosedInOrder(closed + [m])
    ensures visible == [] && Tail(closed + [m], [], end)
  {
    var all := closed + [m];
    assert forall i :: 0 <= i < |closed| ==> all[i] == closed[i];
    forall i | 0 <= i < |closed| ensures !After(closed[i], end) {
      assert all[i].lastEventId < all[|closed|].lastEventId;
    }
    NothingVisible(closed, visible, end);
  }

  lemma NothingVisible(closed: seq<Message>, visible: seq<Message>, end: Option<EventId>)
    requires Tail(closed, visible, end)
    ensures visible != [] ==> After(closed[|closed| - |visible|], end)
  {
  }

  /** In closing order, the messages after the artifact are the last ones. */
  lemma {:induction false} VisibleIsTail(closed: seq<Message>, end: Option<EventId>)
    requires end.Some? ==> ClosedInOrder(closed)
    ensures Tail(closed, Visible(closed, end), end)
    ensures end.None? ==> |Visible(closed, end)| == |closed|
    decreases |closed|
  {
    if closed != [] {
      hide Tail;
      var n := |closed| - 1;
      assert closed == closed[..n] + [closed[n]];
      VisibleIsTail(closed[..n], end);
      VisibleLast(closed[..n], closed[n], end);
      if After(closed[n], end) {
        TailGrows(closed[..n], Visible(closed[..n], end), closed[n], end);
      } else {
        TailStays(closed[..n], Visible(closed[..n], end), closed[n], end);
      }
    } else {
      assert closed[|closed|..] == [];
    }
  }

  lemma VisibleLast(closed: seq<Message>, m: Message, end: Option<EventId>)
    ensures Visible(closed + [m], end) == Visible(closed, end) + (if After(m, end) then [m] else [])
  {
    FilterLast(closed, m, (x: Message) => After(x, end));
  }

  /** What a message emitted names the message, and nothing in the artifact's range is left to name. */
  lemma EmittedByFacts(ms: seq<Message>, calls: seq<ToolCall>, end: Option<EventId>, m: Message)
    requires UniqueIds(ms) && m in ms
    ensures forall c :: c in EmittedBy(ms, calls, end, m) ==> c.assistantMessageId == m.messageId
    ensures !After(m, end) ==> EmittedBy(ms, calls, end, m) == []
  {
    FilterKeeps(calls, c => CallVisible(ms, c, end) && c.assistantMessageId == m.messageId);
    var i :| 0 <= i < |ms| && ms[i] == m;
    var j := IndexOf(ms, m.messageId);
    assert j == i;
    var emitted := EmittedBy(ms, calls, end, m);
    if !After(m, end) && emitted != [] {
      SomeCall(emitted);
    }
  }

  lemma SomeCall(calls: seq<ToolCall>)
    requires calls != []
    ensures exists c :: c in calls
  {
    assert calls[0] in calls;
  }

  /** Two messages never carry the same calls. */
  lemma CallsTellMessagesApart(ms: seq<Message>, calls: seq<ToolCall>, end: Option<EventId>, a: Message, b: Message)
    requires UniqueIds(ms) && a in ms && b in ms && a.messageId != b.messageId
    requires EmittedBy(ms, calls, end, a) != []
    ensures EmittedBy(ms, calls, end, a) != EmittedBy(ms, calls, end, b)
  {
    EmittedByFacts(ms, calls, end, a);
    EmittedByFacts(ms, calls, end, b);
    hide EmittedBy;
    var c := EmittedBy(ms, calls, end, a)[0];
    assert c in EmittedBy(ms, calls, end, a);
  }

  /** How many entries the transcript has for the messages before the i-th closed one. */
  function Rank(closed: seq<Message>, end: Option<EventId>, i: nat): nat
    requires i <= |closed|
  {
    |Visible(closed[..i], end)|
  }

  predicate HasRank(closed: seq<Message>, end: Option<EventId>, i: int, j: nat) {
    0 <= i < |closed| && After(closed[i], end) && Rank(closed, end, i) == j
  }

  ghost predicate Held(closed: seq<Message>, end: Option<EventId>, j: nat) { exists i :: HasRank(closed, end, i, j) }

  /** A visible message stands at its rank, and every place holds a visible message. */
  ghost predicate Ranked(closed: seq<Message>, visible: seq<Message>, end: Option<EventId>) {
    && (forall i :: 0 <= i < |closed| && After(closed[i], end) ==>
          Rank(closed, end, i) < |visible| && visible[Rank(closed, end, i)] == closed[i])
    && (forall j :: 0 <= j < |visible| ==> Held(closed, end, j))
  }

  lemma RankedNext(closed: seq<Message>, m: Message, end: Option<EventId>)
    requires Ranked(closed, Visible(closed, end), end)
    ensures Ranked(closed + [m], Visible(closed + [m], end), end)
  {
    VisibleLast(closed, m, end);
    hide Visible, After;
    var all, before, visible := closed + [m], Visible(closed, end), Visible(closed + [m], end);
    var n := |closed|;
    assert all[..n] == closed;
    forall i | 0 <= i < n ensures Rank(all, end, i) == Rank(closed, end, i) {
      assert all[..i] == closed[..i];
    }
    assert Rank(all, end, n) == |before|;
    forall j | 0 <= j < |visible| ensures Held(all, end, j) {
      if j < |before| {
        assert Held(closed, end, j);
        var i :| HasRank(closed, end, i, j);
        assert HasRank(all, end, i, j);
      } else {
        assert HasRank(all, end, n, j);
      }
    }
  }

  lemma {:induction false} VisibleIsRanked(closed: seq<Message>, end: Option<EventId>)
    ensures Ranked(closed, Visible(closed, end), end)
    decreases |closed|
  {
    if closed != [] {
      var n := |closed| - 1;
      VisibleIsRanked(closed[..n], end);
      RankedNext(closed[..n], closed[n], end);
      assert closed == closed[..n] + [closed[n]];
    }
  }

  /** Only messages past the artifact carry calls, and their calls tell them apart. */
  ghost predicate Carriers(ms: seq<Message>, closed: seq<Message>, calls: seq<ToolCall>, end: Option<EventId>) {
    && (forall i :: 0 <= i < |closed| && Carries(ms, calls, end, closed[i]) ==> After(closed[i], end))
    && (forall i, j :: 0 <= i < |closed| && 0 <= j < |closed| && i != j && Carries(ms, calls, end, closed[i]) ==>
          EmittedBy(ms, calls, end, closed[i]) != EmittedBy(ms, calls, end, closed[j]))
  }

  lemma CarriersHold(ms: seq<Message>, closed: seq<Message>, calls: seq<ToolCall>, end: Option<EventId>)
    requires UniqueIds(ms) && UniqueIds(closed) && (forall m :: m in closed ==> m in ms)
    ensures Carriers(ms, closed, calls, end)
  {
    hide EmittedBy, Visible, After;
    forall i | 0 <= i < |closed| && Carries(ms, calls, end, closed[i]) ensures After(closed[i], end) {
      assert closed[i] in closed;
      EmittedByFacts(ms, calls, end, closed[i]);
    }
    forall i, j | 0 <= i < |closed| && 0 <= j < |closed| && i != j && Carries(ms, calls, end, closed[i])
      ensures EmittedBy(ms, calls, end, closed[i]) != EmittedBy(ms, calls, end, closed[j])
    {
      assert closed[i] in closed && closed[j] in closed;
      assert closed[i].messageId != closed[j].messageId by { assert UniqueIds(closed); }
      CallsTellMessagesApart(ms, calls, end, closed[i], closed[j]);
    }
  }

  /** The entries before the loop: the preamble, then one for each visible message, none with calls. */
  ghost predicate Layout(entries: seq<Entry>, prefix: nat, visible: seq<Message>) {
    && |entries| == prefix + |visible|
    && (forall k :: 0 <= k < prefix ==> !entries[k].origin.FromMessage?)
    && (forall k :: prefix <= k < |entries| ==> entries[k].origin == FromMessage(visible[k - prefix]))
    && (forall k :: 0 <= k < |entries| ==> entries[k].toolCalls == [])
  }

  lemma LayoutHolds(instructions: bool, end: Option<EventId>, visible: seq<Message>)
    ensures Layout(Preamble(instructions, end) + Plain(visible), |Preamble(instructions, end)|, visible)
  {
  }

  /** Where the loop looks for the entry of the i-th closed message is where that entry is. */
  predicate Found(closed: seq<Message>, end: Option<EventId>, prefix: nat, offset: nat, i: nat)
    requires i <= |closed|
  {
    prefix + Rank(closed, end, i) == offset + i
  }

  lemma FoundIsAligned(entries: seq<Entry>, ms: seq<Message>, closed: seq<Message>, calls: seq<ToolCall>, end: Option<EventId>,
                       prefix: nat, visible: seq<Message>, offset: nat)
    requires Layout(entries, prefix, visible) && Ranked(closed, visible, end) && Carriers(ms, closed, calls, end)
    requires forall i :: 0 <= i < |closed| && Carries(ms, calls, end, closed[i]) ==> Found(closed, end, prefix, offset, i)
    ensures forall i :: 0 <= i < |closed| && Carries(ms, calls, end, closed[i]) ==> offset + i < |entries|
    ensures Aligned(Placed(entries, ms, closed, calls, end, offset), ms, calls, end)
  {
    hide EmittedBy, Rank, After;
    var placed := Placed(entries, ms, closed, calls, end, offset);
    forall i | 0 <= i < |closed| && Carries(ms, calls, end, closed[i]) ensures prefix + Rank(closed, end, i) == offset + i {
      assert Found(closed, end, prefix, offset, i);
    }
    forall k | 0 <= k < |placed|
      ensures placed[k].toolCalls ==
              if placed[k].origin.FromMessage? && placed[k].origin.message.role == AssistantRole
              then EmittedBy(ms, calls, end, placed[k].origin.message) else []
    {
      if offset <= k < offset + |closed| && Carries(ms, calls, end, closed[k - offset]) {
        assert Found(closed, end, prefix, offset, k - offset);
        assert visible[k - prefix] == closed[k - offset];
      } else {
        assert placed[k] == entries[k];
        if k >= prefix {
          assert Held(closed, end, k - prefix);
          var i :| HasRank(closed, end, i, k - prefix);
          assert placed[k].origin == FromMessage(closed[i]);
        }
      }
    }
  }

  lemma AlignedIsFound(entries: seq<Entry>, ms: seq<Message>, closed: seq<Message>, calls: seq<ToolCall>, end: Option<EventId>,
                       prefix: nat, visible: seq<Message>, offset: nat, i: nat)
    requires Layout(entries, prefix, visible) && Ranked(closed, visible, end) && Carriers(ms, closed, calls, end)
    requires i < |closed| && Carries(ms, calls, end, closed[i]) && offset + i < |entries|
    requires Aligned(Placed(entries, ms, closed, calls, end, offset), ms, calls, end)
    ensures Found(closed, end, prefix, offset, i)
  {
    hide EmittedBy, Rank, After;
    var k := offset + i;
    var placed := Placed(entries, ms, closed, calls, end, offset);
    assert placed[k].toolCalls == EmittedBy(ms, calls, end, closed[i]) && placed[k].origin == entries[k].origin;
    assert k >= prefix;
    assert Held(closed, end, k - prefix);
    var j :| HasRank(closed, end, j, k - prefix);
    assert placed[k].origin == FromMessage(closed[j]);
    assert EmittedBy(ms, calls, end, closed[i]) == EmittedBy(ms, calls, end, closed[j]);
  }

  /** Every call list sits on the message that emitted it if and only if, for each message that carries calls, its place
      in the transcript is the place the loop computes by counting all closed messages. Otherwise a list lands on
      another entry, or past the end, which aborts the request. */
  lemma AlignedExactly(ms: seq<Message>, calls: seq<ToolCall>, end: Option<EventId>, instructions: bool)
    requires UniqueIds(ms)
    ensures var closed := ClosedMessages(ms);
            var entries := Entries(instructions, ms, end);
            var offset := Minus(|entries|, |closed|);
            (forall i :: 0 <= i < |closed| && Carries(ms, calls, end, closed[i]) ==> offset + i < |entries|)
            && Aligned(Placed(entries, ms, closed, calls, end, offset), ms, calls, end)
            <==>
            forall i :: 0 <= i < |closed| && Carries(ms, calls, end, closed[i]) ==>
              Found(closed, end, |Preamble(instructions, end)|, offset, i)
  {
    hide EmittedBy, Filter, Aligned, Placed, Layout, Carriers, Ranked, Preamble, Plain, Visible, Found, Carries;
    var closed := ClosedMessages(ms);
    var visible := Visible(closed, end);
    var prefix := |Preamble(instructions, end)|;
    var entries := Preamble(instructions, end) + Plain(visible);
    var offset := Minus(|entries|, |closed|);
    FilterKeeps(ms, (m: Message) => m.Closed());
    FilterApart(ms, (m: Message) => m.Closed(), (m: Message) => m.messageId);
    LayoutHolds(instructions, end, visible);
    CarriersHold(ms, closed, calls, end);
    VisibleIsRanked(closed, end);
    if forall i :: 0 <= i < |closed| && Carries(ms, calls, end, closed[i]) ==> Found(closed, end, prefix, offset, i) {
      FoundIsAligned(entries, ms, closed, calls, end, prefix, visible, offset);
    } else if (forall i :: 0 <= i < |closed| && Carries(ms, calls, end, closed[i]) ==> offset + i < |entries|)
              && Aligned(Placed(entries, ms, closed, calls, end, offset), ms, calls, end) {
      forall i | 0 <= i < |closed| && Carries(ms, calls, end, closed[i]) ensures Found(closed, end, prefix, offset, i) {
        AlignedIsFound(entries, ms, closed, calls, end, prefix, visible, offset, i);
      }
    }
  }

  /** When messages were closed in order, a message that carries calls is found exactly when the artifact covers no more
      messages than stand before the transcript. Without an artifact it covers none, so every message is found. */
  lemma FoundInOrder(closed: seq<Message>, end: Option<EventId>, prefix: nat, i: nat)
    requires (end.Some? ==> ClosedInOrder(closed)) && i < |closed| && After(closed[i], end)
    ensures |Visible(closed, end)| <= |closed|
    ensures var covered := |closed| - |Visible(closed, end)|;
            && (Found(closed, end, prefix, Minus(prefix + |Visible(closed, end)|, |closed|), i) <==> covered <= prefix)
            && (end.None? ==> covered == 0)
  {
    VisibleIsTail(closed, end);
    if end.None? {
      VisibleIsTail(closed[..i], end);
    } else {
      VisibleIsRanked(closed, end);
      RankInOrder(closed, Visible(closed, end), end, i);
    }
  }

  lemma RankInOrder(closed: seq<Message>, visible: seq<Message>, end: Option<EventId>, i: nat)
    requires Tail(closed, visible, end) && Ranked(closed, visible, end) && ClosedInOrder(closed)
    requires i < |closed| && After(closed[i], end)
    ensures Rank(closed, end, i) == i - (|closed| - |visible|)
  {
    hide Rank, After;
    var k := |closed| - |visible| + Rank(closed, end, i);
    assert visible[Rank(closed, end, i)] == closed[k];
    SamePlace(closed, i, k);
  }

  lemma SamePlace(closed: seq<Message>, i: nat, k: nat)
    requires ClosedInOrder(closed) && i < |closed| && k < |closed|
    ensures closed[i].lastEventId == closed[k].lastEventId <==> i == k
  {
  }
}
