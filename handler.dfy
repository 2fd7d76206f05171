/** llm/handler.py: the bookkeeping of the TorchServe handler. preprocess
    flattens a batch of raw bodies and KServe V2 requests into one input list
    and records, per request index, its kind, its row count and its id;
    postprocess regroups the flat outputs into one V2 response per request.
    The tokenizer and the model are not part of this model. */
module Handler {
  import opened Common
  import opened Catalog
  import opened TsUtils

  // ----- requests -----

  /** One row of a V2 request's "inputs": its "data" list, None when absent. */
  datatype Row = Row(data: Option<seq<string>>)

  /** One element of a batch: a raw body, or a dict, which is a KServe V2
      request when it holds "inputs". */
  datatype Request = Raw(body: string) | Dict(id: Option<string>, inputs: Option<seq<Row>>)

  /** The request_type values: "raw" and "kservev2". */
  datatype RequestKind = RawKind | V2Kind

  predicate IsV2(req: Request)
  {
    req.Dict? && req.inputs.Some?
  }

  /** The id a V2 request is answered with: its "id", or "" when that is
      missing or empty. */
  function IdOf(req: Request): (id: string)
    requires IsV2(req)
    ensures req.id.Some? && req.id.value != "" ==> id == req.id.value
    ensures req.id.None? || req.id.value == "" ==> id == ""
  {
    if req.id.Some? && req.id.value != "" then req.id.value else ""
  }

  /** data[0] of a row: TypeError when the row has no "data", IndexError
      when it is empty. */
  function RowText(row: Row): (r: Outcome<string>)
    ensures r.Done? <==> row.data.Some? && row.data.value != []
    ensures r.Done? ==> r.value == row.data.value[0]
    ensures row.data.None? ==> r == Failed(Raise("TypeError"))
    ensures row.data == Some([]) ==> r == Failed(Raise("IndexError"))
  {
    match row.data
    case None => Failed(Raise("TypeError"))
    case Some(d) => if d == [] then Failed(Raise("IndexError")) else Done(d[0])
  }

  /** `a` followed by `b`, failing with the first failure. */
  function Then(a: Outcome<seq<string>>, b: Outcome<seq<string>>): Outcome<seq<string>>
  {
    if a.Failed? then a else if b.Failed? then b else Done(a.value + b.value)
  }

  /** The texts of the rows, in order, or the first row's failure. */
  function RowTexts(rows: seq<Row>): (r: Outcome<seq<string>>)
    ensures r.Done? <==> forall i :: 0 <= i < |rows| ==> RowText(rows[i]).Done?
    ensures r.Done? ==>
      |r.value| == |rows| && forall i :: 0 <= i < |rows| ==> r.value[i] == RowText(rows[i]).value
    decreases |rows|
  {
    if rows == [] then Done([])
    else
      var last := RowText(rows[|rows| - 1]);
      Then(RowTexts(rows[..|rows| - 1]), if last.Done? then Done([last.value]) else Failed(last.failure))
  }

  /** What one request adds to the input list: a raw body itself, a V2
      request the data[0] of each row, any other dict nothing. */
  function Contribution(req: Request): (r: Outcome<seq<string>>)
    ensures req.Raw? ==> r == Done([req.body])
    ensures req.Dict? && req.inputs.None? ==> r == Done([])
    ensures IsV2(req) ==> r == RowTexts(req.inputs.value)
  {
    match req
    case Raw(body) => Done([body])
    case Dict(_, inputs) => if inputs.Some? then RowTexts(inputs.value) else Done([])
  }

  /** The input list preprocess builds: the contributions in batch order. */
  function Flat(reqs: seq<Request>): Outcome<seq<string>>
    decreases |reqs|
  {
    if reqs == [] then Done([])
    else Then(Flat(reqs[..|reqs| - 1]), Contribution(reqs[|reqs| - 1]))
  }

  /** request_type after preprocess: raw bodies and V2 requests get a kind,
      a dict without "inputs" gets none. */
  function KindsOf(reqs: seq<Request>): map<nat, RequestKind>
  {
    map i: nat | 0 <= i < |reqs| && (reqs[i].Raw? || IsV2(reqs[i])) ::
      if reqs[i].Raw? then RawKind else V2Kind
  }

  /** request_list after preprocess: a V2 request's row count (the counter
      is created by its first row). */
  function CountsOf(reqs: seq<Request>): map<nat, int>
  {
    map i: nat | 0 <= i < |reqs| && IsV2(reqs[i]) && |reqs[i].inputs.value| > 0 ::
      |reqs[i].inputs.value|
  }

  /** request_ids after preprocess. */
  function IdsOf(reqs: seq<Request>): map<nat, string>
  {
    map i: nat | 0 <= i < |reqs| && IsV2(reqs[i]) :: IdOf(reqs[i])
  }

  /** A counter of request_list, with the defaultdict's 0. */
  function Count(counts: map<nat, int>, i: nat): int
  {
    if i in counts then counts[i] else 0
  }

  /** Per request: its kind is recorded exactly for raw bodies and V2
      requests, a V2 request's counter is its row count and its id the
      request's id or "". */
  lemma PreprocessRecords(reqs: seq<Request>, i: nat)
    requires i < |reqs|
    ensures i in KindsOf(reqs) <==> reqs[i].Raw? || IsV2(reqs[i])
    ensures reqs[i].Raw? ==> KindsOf(reqs)[i] == RawKind
    ensures IsV2(reqs[i]) ==>
      && KindsOf(reqs)[i] == V2Kind
      && Count(CountsOf(reqs), i) == |reqs[i].inputs.value|
      && i in IdsOf(reqs) && IdsOf(reqs)[i] == IdOf(reqs[i])
  {
  }

  // ----- outputs -----

  /** One element of a V2 response's "outputs". */
  datatype Output = Output(name: string, shape: seq<int>, dataType: string, data: seq<string>)

  /** A raw result is returned as it is; a V2 request gets a dict with its
      id (None stands for the defaultdict's 0), the manifest's model name and
      version, and its outputs. */
  datatype Response =
    | Passthrough(text: string)
    | V2Response(id: Option<string>, modelName: string, modelVersion: string, outputs: seq<Output>)

  /** What postprocess reads from the context: the manifest's model name
      and version and the request's "explain" header. */
  datatype Context = Context(modelName: string, modelVersion: string, explain: Option<string>)

  /** _to_json: an explanation iff the explain header is "True", otherwise
      a prediction; one BYTES element of unknown length holding the text. */
  function ToJson(explain: Option<string>, text: string): (o: Output)
    ensures o.name == "explain" <==> explain == Some("True")
    ensures o.name == "explain" || o.name == "predict"
    ensures o.shape == [-1] && o.dataType == "BYTES" && o.data == [text]
  {
    Output(if explain == Some("True") then "explain" else "predict", [-1], "BYTES", [text])
  }

  /** _batch_to_json: one output per text, in order. */
  function BatchToJson(explain: Option<string>, texts: seq<string>): (r: seq<Output>)
    ensures |r| == |texts|
    ensures forall i :: 0 <= i < |texts| ==> r[i] == ToJson(explain, texts[i])
  {
    seq(|texts|, i requires 0 <= i < |texts| => ToJson(explain, texts[i]))
  }

  /** The texts carried by a list of outputs. */
  function OutputTexts(outputs: seq<Output>): (r: seq<string>)
    ensures |r| == |outputs|
  {
    seq(|outputs|, i requires 0 <= i < |outputs| =>
      if outputs[i].data == [] then "" else outputs[i].data[0])
  }

  /** Reading the texts back out of _batch_to_json gives the batch. */
  lemma BatchToJsonTexts(explain: Option<string>, texts: seq<string>)
    ensures OutputTexts(BatchToJson(explain, texts)) == texts
  {
    var outs := BatchToJson(explain, texts);
    forall i | 0 <= i < |texts| ensures OutputTexts(outs)[i] == texts[i] {
      assert outs[i].data == [texts[i]];
    }
  }

  // ----- postprocess, as a fold over the results -----

  /** The loop state of postprocess: the request index, the counters, the
      outputs of the current V2 request, and the responses so far. */
  datatype PostState = PostState(idx: nat, counts: map<nat, int>, pending: seq<string>,
                                 out: seq<Response>)

  /** The id recorded for request `i`. */
  function IdAt(ids: map<nat, string>, i: nat): Option<string>
  {
    if i in ids then Some(ids[i]) else None
  }

  /** One result. Under a raw request it is answered as it is and the index
      stays; otherwise it joins the current request's outputs, whose counter
      drops by one, and when the counter reaches 0 the response is emitted
      and the index moves on. */
  function Step(kinds: map<nat, RequestKind>, ids: map<nat, string>, ctx: Context,
                s: PostState, result: string): PostState
  {
    if s.idx in kinds && kinds[s.idx] == RawKind then
      s.(out := s.out + [Passthrough(result)])
    else
      var pending := s.pending + [result];
      var left := Count(s.counts, s.idx) - 1;
      var counts := s.counts[s.idx := left];
      if left != 0 then s.(counts := counts, pending := pending)
      else PostState(s.idx + 1, counts, [],
                     s.out + [V2Response(IdAt(ids, s.idx), ctx.modelName, ctx.modelVersion,
                                         BatchToJson(ctx.explain, pending))])
  }

  /** The steps for `results`, in order. */
  function Fold(kinds: map<nat, RequestKind>, ids: map<nat, string>, ctx: Context,
                s: PostState, results: seq<string>): PostState
    decreases |results|
  {
    if results == [] then s
    else Fold(kinds, ids, ctx, Step(kinds, ids, ctx, s, results[0]), results[1..])
  }

  /** Each result returned as it is. */
  function Passthroughs(results: seq<string>): (r: seq<Response>)
    ensures |r| == |results|
    ensures forall i :: 0 <= i < |results| ==> r[i] == Passthrough(results[i])
  {
    seq(|results|, i requires 0 <= i < |results| => Passthrough(results[i]))
  }

  /** Once the index sits on a raw request it never moves: every later
      result is answered as it is. */
  lemma {:induction false} RawHoldsIndex(kinds: map<nat, RequestKind>, ids: map<nat, string>,
                                         ctx: Context, s: PostState, results: seq<string>)
    requires s.idx in kinds && kinds[s.idx] == RawKind
    ensures Fold(kinds, ids, ctx, s, results) == s.(out := s.out + Passthroughs(results))
    decreases |results|
  {
    if results != [] {
      var s' := Step(kinds, ids, ctx, s, results[0]);
      RawHoldsIndex(kinds, ids, ctx, s', results[1..]);
      assert s.out + [Passthrough(results[0])] + Passthroughs(results[1..])
          == s.out + Passthroughs(results);
    }
  }

  /** The results of a batch whose first request is raw all come back as
      they are, whatever the later requests were: an all-raw batch is
      answered unchanged and in order, and so are the V2 requests that
      follow a raw one. */
  lemma FirstRawAnswersAllRaw(reqs: seq<Request>, counts: map<nat, int>, ctx: Context,
                              results: seq<string>)
    requires reqs != [] && reqs[0].Raw?
    ensures Fold(KindsOf(reqs), IdsOf(reqs), ctx, PostState(0, counts, [], []), results).out
         == Passthroughs(results)
  {
    assert 0 in KindsOf(reqs);
    RawHoldsIndex(KindsOf(reqs), IdsOf(reqs), ctx, PostState(0, counts, [], []), results);
  }

  /** The groups, concatenated in order. */
  function Flatten(groups: seq<seq<string>>): seq<string>
    decreases |groups|
  {
    if groups == [] then [] else groups[0] + Flatten(groups[1..])
  }

  lemma {:induction false} FlattenSnoc(groups: seq<seq<string>>, g: seq<string>)
    ensures Flatten(groups + [g]) == Flatten(groups) + g
    decreases |groups|
  {
    if groups == [] {
      assert Flatten([g]) == g + Flatten([]);
    } else {
      assert (groups + [g])[1..] == groups[1..] + [g];
      FlattenSnoc(groups[1..], g);
    }
  }

  /** The responses for consecutive V2 requests from index `k` on. */
  function V2Responses(ids: map<nat, string>, ctx: Context, k: nat, groups: seq<seq<string>>)
    : (r: seq<Response>)
    ensures |r| == |groups|
    decreases |groups|
  {
    if groups == [] then []
    else [Respond(ids, ctx, k, groups[0])] + V2Responses(ids, ctx, k + 1, groups[1..])
  }

  /** Response `j` answers request `k + j` with group `j`. */
  lemma {:induction false} V2ResponsesAt(ids: map<nat, string>, ctx: Context, k: nat,
                                         groups: seq<seq<string>>, j: nat)
    requires j < |groups|
    ensures V2Responses(ids, ctx, k, groups)[j] == Respond(ids, ctx, k + j, groups[j])
    decreases j
  {
    if j > 0 {
      V2ResponsesAt(ids, ctx, k + 1, groups[1..], j - 1);
    }
  }

  /** A V2 request whose counter equals the length of `g` consumes exactly
      `g` and emits its response with everything pending. */
  lemma {:induction false} OneGroup(kinds: map<nat, RequestKind>, ids: map<nat, string>,
                                    ctx: Context, k: nat, counts: map<nat, int>,
                                    pending: seq<string>, out: seq<Response>,
                                    g: seq<string>, rest: seq<string>)
    requires !(k in kinds && kinds[k] == RawKind)
    requires |g| >= 1 && Count(counts, k) == |g|
    ensures Fold(kinds, ids, ctx, PostState(k, counts, pending, out), g + rest)
         == Fold(kinds, ids, ctx,
                 PostState(k + 1, counts[k := 0], [],
                           out + [V2Response(IdAt(ids, k), ctx.modelName, ctx.modelVersion,
                                             BatchToJson(ctx.explain, pending + g))]),
                 rest)
    decreases |g|
  {
    assert (g + rest)[0] == g[0];
    assert (g + rest)[1..] == g[1..] + rest;
    if |g| == 1 {
      assert pending + g == pending + [g[0]];
      assert g[1..] + rest == rest;
    } else {
      var counts' := counts[k := |g| - 1];
      OneGroup(kinds, ids, ctx, k, counts', pending + [g[0]], out, g[1..], rest);
      assert counts'[k := 0] == counts[k := 0];
      assert pending + [g[0]] + g[1..] == pending + g;
    }
  }

  /** The counters of consecutive V2 requests from `k` on equal the sizes
      of `groups`. */
  predicate GroupsFit(kinds: map<nat, RequestKind>, counts: map<nat, int>, k: nat,
                      groups: seq<seq<string>>)
  {
    forall j :: 0 <= j < |groups| ==>
      && |groups[j]| >= 1 && Count(counts, k + j) == |groups[j]|
      && !(k + j in kinds && kinds[k + j] == RawKind)
  }

  /** Once the first request's counter is used up, the rest still fit. */
  lemma GroupsFitRest(kinds: map<nat, RequestKind>, counts: map<nat, int>, k: nat,
                      groups: seq<seq<string>>)
    requires groups != [] && GroupsFit(kinds, counts, k, groups)
    ensures GroupsFit(kinds, counts[k := 0], k + 1, groups[1..])
  {
    forall j | 0 <= j < |groups[1..]|
      ensures Count(counts[k := 0], k + 1 + j) == |groups[1..][j]|
      ensures !(k + 1 + j in kinds && kinds[k + 1 + j] == RawKind)
    {
      assert groups[1..][j] == groups[j + 1];
      assert k + 1 + j == k + (j + 1);
    }
  }

  /** The response to V2 request `k` with outputs `texts`. */
  function Respond(ids: map<nat, string>, ctx: Context, k: nat, texts: seq<string>): Response
  {
    V2Response(IdAt(ids, k), ctx.modelName, ctx.modelVersion, BatchToJson(ctx.explain, texts))
  }

  /** The first of the groups is consumed first. */
  lemma FirstGroup(kinds: map<nat, RequestKind>, ids: map<nat, string>, ctx: Context, k: nat,
                   counts: map<nat, int>, out: seq<Response>, groups: seq<seq<string>>)
    requires groups != [] && GroupsFit(kinds, counts, k, groups)
    ensures Fold(kinds, ids, ctx, PostState(k, counts, [], out), Flatten(groups))
         == Fold(kinds, ids, ctx, PostState(k + 1, counts[k := 0], [], out + [Respond(ids, ctx, k, groups[0])]),
                 Flatten(groups[1..]))
  {
    assert [] + groups[0] == groups[0];
    assert |groups[0]| >= 1 && Count(counts, k + 0) == |groups[0]|;
    OneGroup(kinds, ids, ctx, k, counts, [], out, groups[0], Flatten(groups[1..]));
  }

  /** Consecutive V2 requests whose counters equal the sizes of `groups`
      consume the groups one by one, one response per request, in order. */
  lemma {:induction false} Groups(kinds: map<nat, RequestKind>, ids: map<nat, string>,
                                  ctx: Context, k: nat, counts: map<nat, int>,
                                  out: seq<Response>, groups: seq<seq<string>>)
    requires GroupsFit(kinds, counts, k, groups)
    ensures Fold(kinds, ids, ctx, PostState(k, counts, [], out), Flatten(groups)).out
         == out + V2Responses(ids, ctx, k, groups)
    decreases |groups|
  {
    if groups != [] {
      var rest := Flatten(groups[1..]);
      var s1 := PostState(k + 1, counts[k := 0], [], out + [Respond(ids, ctx, k, groups[0])]);
      FirstGroup(kinds, ids, ctx, k, counts, out, groups);
      GroupsFitRest(kinds, counts, k, groups);
      Groups(kinds, ids, ctx, k + 1, counts[k := 0], out + [Respond(ids, ctx, k, groups[0])], groups[1..]);
      assert out + [Respond(ids, ctx, k, groups[0])] + V2Responses(ids, ctx, k + 1, groups[1..])
          == out + V2Responses(ids, ctx, k, groups);
    }
  }

  /** The counters preprocess records for a batch of V2 requests fit the
      groups of results, one group per request. */
  lemma BatchFits(reqs: seq<Request>, groups: seq<seq<string>>)
    requires |groups| == |reqs|
    requires forall i :: 0 <= i < |reqs| ==>
      IsV2(reqs[i]) && |reqs[i].inputs.value| >= 1 && |groups[i]| == |reqs[i].inputs.value|
    ensures GroupsFit(KindsOf(reqs), CountsOf(reqs), 0, groups)
  {
    forall j | 0 <= j < |groups|
      ensures |groups[j]| >= 1 && Count(CountsOf(reqs), 0 + j) == |groups[j]|
      ensures !(0 + j in KindsOf(reqs) && KindsOf(reqs)[0 + j] == RawKind)
    {
      PreprocessRecords(reqs, j);
    }
  }

  /** The responses built for the groups carry each request's own id and
      its own results. */
  lemma BatchResponses(reqs: seq<Request>, groups: seq<seq<string>>, ctx: Context)
    requires |groups| == |reqs|
    requires forall i :: 0 <= i < |reqs| ==>
      IsV2(reqs[i]) && |reqs[i].inputs.value| >= 1 && |groups[i]| == |reqs[i].inputs.value|
    ensures var rs := V2Responses(IdsOf(reqs), ctx, 0, groups);
      && |rs| == |reqs|
      && forall i :: 0 <= i < |reqs| ==>
        && rs[i].V2Response?
        && rs[i].id == Some(IdOf(reqs[i]))
        && |rs[i].outputs| == |reqs[i].inputs.value|
        && OutputTexts(rs[i].outputs) == groups[i]
  {
    var ids := IdsOf(reqs);
    forall i | 0 <= i < |reqs|
      ensures V2Responses(ids, ctx, 0, groups)[i] == Respond(ids, ctx, i, groups[i])
      ensures OutputTexts(BatchToJson(ctx.explain, groups[i])) == groups[i]
      ensures IdAt(ids, i) == Some(IdOf(reqs[i]))
    {
      V2ResponsesAt(ids, ctx, 0, groups, i);
      BatchToJsonTexts(ctx.explain, groups[i]);
      PreprocessRecords(reqs, i);
    }
  }

  /** A batch of V2 requests, each with at least one row: when the model
      returns one result per input, grouped as the rows were, postprocess
      answers each request in turn with its own id and exactly its own
      results. */
  lemma V2BatchRegrouped(reqs: seq<Request>, groups: seq<seq<string>>, ctx: Context)
    requires |groups| == |reqs|
    requires forall i :: 0 <= i < |reqs| ==>
      IsV2(reqs[i]) && |reqs[i].inputs.value| >= 1 && |groups[i]| == |reqs[i].inputs.value|
    ensures var f := Fold(KindsOf(reqs), IdsOf(reqs), ctx, PostState(0, CountsOf(reqs), [], []),
                          Flatten(groups));
      && |f.out| == |reqs|
      && forall i :: 0 <= i < |reqs| ==>
        && f.out[i].V2Response?
        && f.out[i].id == Some(IdOf(reqs[i]))
        && |f.out[i].outputs| == |reqs[i].inputs.value|
        && OutputTexts(f.out[i].outputs) == groups[i]
  {
    BatchFits(reqs, groups);
    Groups(KindsOf(reqs), IdsOf(reqs), ctx, 0, CountsOf(reqs), [], groups);
    BatchResponses(reqs, groups, ctx);
    assert [] + V2Responses(IdsOf(reqs), ctx, 0, groups) == V2Responses(IdsOf(reqs), ctx, 0, groups);
  }

  /** The input list is the contributions laid end to end. */
  lemma {:induction false} FlatIsFlatten(reqs: seq<Request>)
    requires Flat(reqs).Done?
    ensures forall i :: 0 <= i < |reqs| ==> Contribution(reqs[i]).Done?
    ensures Flat(reqs).value
         == Flatten(seq(|reqs|, i requires 0 <= i < |reqs| && Contribution(reqs[i]).Done? =>
                          Contribution(reqs[i]).value))
    decreases |reqs|
  {
    if reqs != [] {
      var init := reqs[..|reqs| - 1];
      FlatIsFlatten(init);
      var gs := seq(|init|, i requires 0 <= i < |init| && Contribution(init[i]).Done? =>
                      Contribution(init[i]).value);
      var all := seq(|reqs|, i requires 0 <= i < |reqs| && Contribution(reqs[i]).Done? =>
                       Contribution(reqs[i]).value);
      assert all == gs + [Contribution(reqs[|reqs| - 1]).value];
      FlattenSnoc(gs, Contribution(reqs[|reqs| - 1]).value);
    }
  }

  /** Preprocess, then a model that echoes its inputs, then postprocess:
      each V2 request gets back the data[0] of its own rows, in order. */
  lemma V2EchoRoundTrip(reqs: seq<Request>, ctx: Context)
    requires forall i :: 0 <= i < |reqs| ==> IsV2(reqs[i]) && |reqs[i].inputs.value| >= 1
    requires Flat(reqs).Done?
    ensures var f := Fold(KindsOf(reqs), IdsOf(reqs), ctx, PostState(0, CountsOf(reqs), [], []),
                          Flat(reqs).value);
      && |f.out| == |reqs|
      && forall i :: 0 <= i < |reqs| ==>
        && f.out[i].V2Response?
        && f.out[i].id == Some(IdOf(reqs[i]))
        && RowTexts(reqs[i].inputs.value) == Done(OutputTexts(f.out[i].outputs))
  {
    FlatIsFlatten(reqs);
    var groups := seq(|reqs|, i requires 0 <= i < |reqs| && Contribution(reqs[i]).Done? =>
                        Contribution(reqs[i]).value);
    V2BatchRegrouped(reqs, groups, ctx);
  }

  // ----- failures of preprocess -----

  lemma {:induction false} ThenFailed(a: Outcome<seq<string>>, b: Outcome<seq<string>>)
    requires a.Failed?
    ensures Then(a, b) == a
  {
  }

  /** A failure stays the first failure whatever follows. */
  lemma {:induction false} RowTextsFailPersists(rows: seq<Row>, k: nat)
    requires k <= |rows| && RowTexts(rows[..k]).Failed?
    ensures RowTexts(rows) == RowTexts(rows[..k])
    decreases |rows| - k
  {
    if k < |rows| {
      var rows' := rows[..k + 1];
      assert rows'[..k] == rows[..k];
      ThenFailed(RowTexts(rows[..k]), if RowText(rows[k]).Done? then Done([RowText(rows[k]).value])
                                      else Failed(RowText(rows[k]).failure));
      RowTextsFailPersists(rows, k + 1);
    } else {
      assert rows[..k] == rows;
    }
  }

  lemma {:induction false} FlatFailPersists(reqs: seq<Request>, k: nat)
    requires k <= |reqs| && Flat(reqs[..k]).Failed?
    ensures Flat(reqs) == Flat(reqs[..k])
    decreases |reqs| - k
  {
    if k < |reqs| {
      assert reqs[..k + 1][..k] == reqs[..k];
      FlatFailPersists(reqs, k + 1);
    } else {
      assert reqs[..k] == reqs;
    }
  }

  /** One more request extends what preprocess has built. */
  lemma PreprocessSnoc(data: seq<Request>, i: nat)
    requires i < |data|
    ensures Flat(data[..i + 1]) == Then(Flat(data[..i]), Contribution(data[i]))
    ensures KindsOf(data[..i + 1]) ==
      if data[i].Raw? then KindsOf(data[..i])[i := RawKind]
      else if IsV2(data[i]) then KindsOf(data[..i])[i := V2Kind]
      else KindsOf(data[..i])
    ensures IdsOf(data[..i + 1]) ==
      if IsV2(data[i]) then IdsOf(data[..i])[i := IdOf(data[i])] else IdsOf(data[..i])
    ensures CountsOf(data[..i + 1]) ==
      if IsV2(data[i]) && |data[i].inputs.value| > 0
      then CountsOf(data[..i])[i := |data[i].inputs.value|] else CountsOf(data[..i])
  {
    assert data[..i + 1][..i] == data[..i];
    assert data[..i + 1][i] == data[i];
  }

  // ----- the handler -----

  /** LLMHandler's request bookkeeping (self.request). */
  class LLMHandler {
    var requestList: map<nat, int>
    var requestIds: map<nat, string>
    var requestKind: map<nat, RequestKind>

    constructor ()
      ensures requestList == map[] && requestIds == map[] && requestKind == map[]
    {
      requestList, requestIds, requestKind := map[], map[], map[];
    }

    /** preprocess: reset the bookkeeping and build the input list (what is
        handed to the tokenizer), or fail at the first malformed row. */
    method Preprocess(data: seq<Request>) returns (r: Outcome<seq<string>>)
      modifies this
      ensures r == Flat(data)
      ensures r.Done? ==>
        requestKind == KindsOf(data) && requestList == CountsOf(data) && requestIds == IdsOf(data)
    {
      requestList, requestIds, requestKind := map[], map[], map[];
      var inputList: seq<string> := [];
      var i := 0;
      while i < |data|
        invariant 0 <= i <= |data|
        invariant Flat(data[..i]) == Done(inputList)
        invariant requestKind == KindsOf(data[..i])
        invariant requestList == CountsOf(data[..i])
        invariant requestIds == IdsOf(data[..i])
      {
        var req := data[i];
        PreprocessSnoc(data, i);
        if req.Dict? {
          if req.inputs.Some? {
            requestKind := requestKind[i := V2Kind];
            requestIds := requestIds[i := IdOf(req)];
            var texts := ReadRows(i, req.inputs.value);
            if texts.Failed? {
              r := Failed(texts.failure);
              FlatFailPersists(data, i + 1);
              return;
            }
            inputList := inputList + texts.value;
          } else {
            assert inputList + [] == inputList;
          }
        } else {
          requestKind := requestKind[i := RawKind];
          inputList := inputList + [req.body];
        }
        i := i + 1;
      }
      assert data[..|data|] == data;
      r := Done(inputList);
    }

    /** The rows of V2 request `i`: each row counts once in request_list
        (the counter is bumped before the row is read) and adds its data[0]. */
    method ReadRows(i: nat, rows: seq<Row>) returns (r: Outcome<seq<string>>)
      requires i !in requestList
      modifies this
      ensures r == RowTexts(rows)
      ensures r.Done? ==>
        requestList == if rows == [] then old(requestList) else old(requestList)[i := |rows|]
      ensures requestKind == old(requestKind) && requestIds == old(requestIds)
    {
      var added: seq<string> := [];
      var j := 0;
      while j < |rows|
        invariant 0 <= j <= |rows|
        invariant RowTexts(rows[..j]) == Done(added)
        invariant requestList == if j == 0 then old(requestList) else old(requestList)[i := j]
        invariant requestKind == old(requestKind) && requestIds == old(requestIds)
      {
        assert rows[..j + 1][..j] == rows[..j];
        requestList := requestList[i := Count(requestList, i) + 1];
        var row := rows[j];
        if row.data.None? || row.data.value == [] {
          r := Failed(RowText(row).failure);
          RowTextsFailPersists(rows, j + 1);
          return;
        }
        added := added + [row.data.value[0]];
        j := j + 1;
      }
      assert rows[..|rows|] == rows;
      r := Done(added);
    }

    /** postprocess: regroup the model's results, one per input, into the
        responses; the counters of request_list are used up on the way. */
    method Postprocess(results: seq<string>, ctx: Context) returns (responses: seq<Response>)
      modifies this
      ensures var f := Fold(requestKind, requestIds, ctx, PostState(0, old(requestList), [], []), results);
        responses == f.out && requestList == f.counts
      ensures requestKind == old(requestKind) && requestIds == old(requestIds)
    {
      responses := [];
      var idx: nat := 0;
      var pending: seq<string> := [];
      var i := 0;
      while i < |results|
        invariant 0 <= i <= |results|
        invariant requestKind == old(requestKind) && requestIds == old(requestIds)
        invariant Fold(requestKind, requestIds, ctx, PostState(idx, requestList, pending, responses), results[i..])
               == Fold(requestKind, requestIds, ctx, PostState(0, old(requestList), [], []), results)
      {
        var result := results[i];
        assert results[i..][1..] == results[i + 1..];
        if idx in requestKind && requestKind[idx] == RawKind {
          responses := responses + [Passthrough(result)];
        } else {
          pending := pending + [result];
          requestList := requestList[idx := Count(requestList, idx) - 1];
          if requestList[idx] == 0 {
            responses := responses + [V2Response(IdAt(requestIds, idx), ctx.modelName,
                                                 ctx.modelVersion, BatchToJson(ctx.explain, pending))];
            idx := idx + 1;
            pending := [];
          }
        }
        i := i + 1;
      }
    }
  }

  // ----- generation parameters -----

  /** A value handed to generate: the text of an environment variable (its
      float conversion is not modelled), a number, the tokenizer's
      end-of-sequence id, or a flag. */
  datatype ParamValue = EnvText(text: string) | Number(n: int) | EosTokenId | Flag(b: bool)

  /** os.environ.get(name) is truthy. */
  predicate NonEmpty(vars: map<string, string>, name: string)
  {
    name in vars && vars[name] != ""
  }

  /** The keyword arguments of generate, key by key: temperature,
      repetition_penalty and top_p exactly when their variable is set and
      non-empty, max_new_tokens always (200 by default), both token ids the
      end-of-sequence token, do_sample always true, and nothing else. */
  predicate DescribesGeneration(d: map<string, ParamValue>, vars: map<string, string>)
  {
    && (forall i :: 0 <= i < 3 ==>
          && (GenerationParams[i].1 in d <==> NonEmpty(vars, GenerationParams[i].0))
          && (GenerationParams[i].1 in d ==> d[GenerationParams[i].1] == EnvText(vars[GenerationParams[i].0])))
    && "max_new_tokens" in d
    && d["max_new_tokens"]
       == (if NonEmpty(vars, "NAI_MAX_TOKENS") then EnvText(vars["NAI_MAX_TOKENS"]) else Number(200))
    && "pad_token_id" in d && d["pad_token_id"] == EosTokenId
    && "eos_token_id" in d && d["eos_token_id"] == EosTokenId
    && "do_sample" in d && d["do_sample"] == Flag(true)
    && (forall k :: k in d ==>
          k in {"temperature", "repetition_penalty", "top_p", "max_new_tokens",
                "pad_token_id", "eos_token_id", "do_sample"})
  }

  /** The parameter selection of inference. */
  method InferenceParams(env: map<string, string>) returns (d: map<string, ParamValue>)
    ensures DescribesGeneration(d, env)
  {
    d := map[];
    if NonEmpty(env, "NAI_TEMPERATURE") {
      d := d["temperature" := EnvText(env["NAI_TEMPERATURE"])];
    }
    if NonEmpty(env, "NAI_REP_PENALTY") {
      d := d["repetition_penalty" := EnvText(env["NAI_REP_PENALTY"])];
    }
    if NonEmpty(env, "NAI_TOP_P") {
      d := d["top_p" := EnvText(env["NAI_TOP_P"])];
    }
    if NonEmpty(env, "NAI_MAX_TOKENS") {
      d := d["max_new_tokens" := EnvText(env["NAI_MAX_TOKENS"])];
    } else {
      d := d["max_new_tokens" := Number(200)];
    }
    d := d["pad_token_id" := EosTokenId];
    d := d["eos_token_id" := EosTokenId];
    d := d["do_sample" := Flag(true)];
  }

  /** After set_model_params for a catalog model with model_params, the
      handler passes exactly the configured, non-empty parameters, and
      max_new_tokens falls back to 200 when it is not configured. */
  lemma CatalogParamsReachGenerate(env: map<string, string>, catalog: Catalog, modelName: string,
                                   d: map<string, ParamValue>)
    requires modelName in catalog && catalog[modelName].modelParams.Some?
    requires DescribesGeneration(d, ModelParamsEnv(env, catalog, modelName))
    ensures var params := catalog[modelName].modelParams.value;
      forall i :: 0 <= i < 3 ==>
        && (GenerationParams[i].1 in d <==>
              GenerationParams[i].1 in params && params[GenerationParams[i].1] != "")
        && (GenerationParams[i].1 in d ==> d[GenerationParams[i].1] == EnvText(params[GenerationParams[i].1]))
    ensures var params := catalog[modelName].modelParams.value;
      d["max_new_tokens"] ==
        if "max_new_tokens" in params && params["max_new_tokens"] != ""
        then EnvText(params["max_new_tokens"]) else Number(200)
  {
    assert GenerationParams[3] == ("NAI_MAX_TOKENS", "max_new_tokens");
  }

  /** For a catalog model without model_params the handler falls back to
      sampling with 200 new tokens and nothing else configured. */
  lemma NoModelParamsDefaults(env: map<string, string>, catalog: Catalog, modelName: string,
                              d: map<string, ParamValue>)
    requires modelName in catalog && catalog[modelName].modelParams.None?
    requires DescribesGeneration(d, ModelParamsEnv(env, catalog, modelName))
    ensures "temperature" !in d && "repetition_penalty" !in d && "top_p" !in d
    ensures d["max_new_tokens"] == Number(200)
  {
    assert GenerationParams[0].1 == "temperature";
    assert GenerationParams[1].1 == "repetition_penalty";
    assert GenerationParams[2].1 == "top_p";
    assert GenerationParams[3] == ("NAI_MAX_TOKENS", "max_new_tokens");
  }
}
