/** `generate`: the Mermaid flow chart of a protocol. The chart is specified as a
    list of chart lines, each rendered to its Mermaid text; the method builds the
    text step by step as the source does and is proved to produce the rendering
    of the specified lines. */
module Flowchart {
  import opened Runtime
  import opened Text
  import opened Json
  import opened Visualize

  /** A node of the chart: the start circle, the box `A<i>` of step `i`, the end circle. */
  datatype Node = StartNode | StepRef(i: int) | EndNode

  /** One line of the generated Mermaid code. */
  datatype ChartLine =
    | Theme(variables: string)
    | Header(direction: string)
    | StartCircle
    | StepBox(i: int, text: string)
    | Link(origin: Node, caption: Option<string>, target: int)
    | EndLink(last: int, delay: Option<string>)
    | BackLink(tail: int, times: string)
    | LinkStyle(index: int)
    | EndCircle
    | ClassDef

  function NodeName(n: Node): string
  {
    match n
    case StartNode => "START"
    case StepRef(i) => "A" + IntToString(i)
    case EndNode => "END"
  }

  /** The Mermaid text of a chart line. The class definition ends without a
      newline, so the header of a following protocol continues that line. */
  function Render(line: ChartLine): string
  {
    match line
    case Theme(variables) =>
      "%%{\ninit: {\n  \"theme\": \"base\",\n  \"themeVariables\": " + variables + "\n}\n}%%\n"
    case Header(direction) => "flowchart " + direction + "\n"
    case StartCircle => "\tSTART((Start))\n"
    case StepBox(i, text) => "\tA" + IntToString(i) + "[\"`" + text + "`\"]:::protocol\n"
    case Link(origin, caption, to) =>
      "\t" + NodeName(origin) + " ==>"
      + (match caption case Some(l) => "|\"`" + l + "`\"|" case None => "")
      + " A" + IntToString(to) + "\n"
    case EndLink(origin, delay) =>
      "\tA" + IntToString(origin) + " ==> " + (match delay case Some(d) => "|" + d + "ms| " case None => "") + "END\n"
    case BackLink(origin, times) => "\tA" + IntToString(origin) + " -.-> |" + times + "x| A0\n"
    case LinkStyle(index) => "\tlinkStyle " + IntToString(index) + " stroke-width:3px\n"
    case EndCircle => "\tEND((&nbsp;End&nbsp;))\n"
    case ClassDef => "\tclassDef protocol text-align:left,white-space:pre;"
  }

  function RenderAll(lines: seq<ChartLine>): string
  {
    if |lines| == 0 then "" else Render(lines[0]) + RenderAll(lines[1..])
  }

  lemma {:induction false} RenderAllAppend(a: seq<ChartLine>, b: seq<ChartLine>)
    ensures RenderAll(a + b) == RenderAll(a) + RenderAll(b)
  {
    if |a| == 0 {
      assert a + b == b;
    } else {
      assert (a + b)[1..] == a[1..] + b;
      RenderAllAppend(a[1..], b);
      var h := Render(a[0]);
      assert h + (RenderAll(a[1..]) + RenderAll(b)) == (h + RenderAll(a[1..])) + RenderAll(b);
    }
  }

  /** The arrow a chart line draws, if any. */
  function LineEdges(line: ChartLine): seq<(Node, Node)>
  {
    match line
    case Link(origin, _, to) => [(origin, StepRef(to))]
    case EndLink(origin, _) => [(StepRef(origin), EndNode)]
    case BackLink(origin, _) => [(StepRef(origin), StepRef(0))]
    case _ => []
  }

  /** The arrows of a list of chart lines, in order. */
  function Edges(lines: seq<ChartLine>): seq<(Node, Node)>
  {
    if |lines| == 0 then [] else LineEdges(lines[0]) + Edges(lines[1..])
  }

  lemma {:induction false} EdgesAppend(a: seq<ChartLine>, b: seq<ChartLine>)
    ensures Edges(a + b) == Edges(a) + Edges(b)
  {
    if |a| == 0 {
      assert a + b == b;
    } else {
      assert (a + b)[0] == a[0];
      assert (a + b)[1..] == a[1..] + b;
      EdgesAppend(a[1..], b);
      var h := LineEdges(a[0]);
      assert h + (Edges(a[1..]) + Edges(b)) == (h + Edges(a[1..])) + Edges(b);
    }
  }

  /** The box a chart line draws, if any. */
  function LineBoxes(line: ChartLine): seq<int>
  {
    match line
    case StepBox(i, _) => [i]
    case _ => []
  }

  /** The step boxes of a list of chart lines, in order. */
  function Boxes(lines: seq<ChartLine>): seq<int>
  {
    if |lines| == 0 then [] else LineBoxes(lines[0]) + Boxes(lines[1..])
  }

  lemma {:induction false} BoxesAppend(a: seq<ChartLine>, b: seq<ChartLine>)
    ensures Boxes(a + b) == Boxes(a) + Boxes(b)
  {
    if |a| == 0 {
      assert a + b == b;
    } else {
      assert (a + b)[0] == a[0];
      assert (a + b)[1..] == a[1..] + b;
      BoxesAppend(a[1..], b);
      var h := LineBoxes(a[0]);
      assert h + (Boxes(a[1..]) + Boxes(b)) == (h + Boxes(a[1..])) + Boxes(b);
    }
  }

  /** Arrow `k` of the chain START -> A0 -> ... -> A<n-1> -> END. */
  function ChainEdge(n: nat, k: nat): (Node, Node)
  {
    if k == n then (StepRef(n - 1), EndNode)
    else (if k == 0 then StartNode else StepRef(k - 1), StepRef(k))
  }

  function Chain(n: nat): seq<(Node, Node)>
  {
    seq(n + 1, k requires 0 <= k <= n => ChainEdge(n, k))
  }

  /** The caption of the arrow into a step: its start signal and pre-illumination,
      separated by a blank line. */
  function EdgeLabel(start: Option<string>, pre: Option<string>): (r: Option<string>)
    ensures r.None? <==> start.None? && pre.None?
    ensures start.Some? && pre.Some? ==> r == Some(start.value + "\n\n" + pre.value)
    ensures start.None? ==> r == pre
    ensures pre.None? ==> r == start
  {
    var node := (match start case Some(s) => [s] case None => [])
              + (match pre case Some(p) => [p] case None => []);
    assert |node| == 2 ==> Join(node, "\n\n") == node[0] + "\n\n" + Join([node[1]], "\n\n") by {
      if |node| == 2 { assert node[1..] == [node[1]]; }
    }
    if |node| > 0 then Some(Join(node, "\n\n")) else None
  }

  /** The steps of a protocol set: objects whose id fields are well formed. */
  predicate StepsOk(steps: seq<JSON>)
  {
    forall k :: 0 <= k < |steps| ==> steps[k].Obj? && WellFormedStep(steps[k].fields)
  }

  /** A protocol of the list: a set of steps, or a single step. */
  predicate GroupOk(element: Dict)
  {
    if Has(element, "_protocol_set_") then
      Field(element, "_protocol_set_").Arr? && StepsOk(Field(element, "_protocol_set_").items)
    else WellFormedStep(element)
  }

  /** What `json.loads` returns for a protocol, or the protocol itself: one
      protocol object or a list of them. */
  predicate Document(doc: JSON)
  {
    || (doc.Obj? && GroupOk(doc.fields))
    || (doc.Arr? && forall k :: 0 <= k < |doc.items| ==> doc.items[k].Obj? && GroupOk(doc.items[k].fields))
  }

  /** The text on the arrow into a step: its start signal and, when it declares a
      pre-illumination, that pre-illumination resolved against `vArr`. */
  function ArrowLabel(el: Dict, vArr: JSON): (r: Result<Option<string>>)
    ensures r.Ok? ==> Start(el).Ok?
    ensures r.Ok? ==> (r.value.Some? <==> Start(el).value.Some? || HasPreillumination(el))
  {
    var start :- Start(el);
    var guard :- Preillumination(el, Null);
    var pre :- if guard.Some? then Preillumination(el, vArr) else Ok(None);
    Ok(EdgeLabel(start, pre))
  }

  /** The lines for step `k` of a protocol set: its box, the arrow into it and,
      for the last step, the arrow to END labelled with its delay. */
  function StepLines(steps: seq<JSON>, k: nat, vArr: JSON): Result<seq<ChartLine>>
    requires k < |steps| && StepsOk(steps)
  {
    var el := steps[k].fields;
    var text :- Content(el);
    var caption :- ArrowLabel(el, vArr);
    Ok(StepChart(k, |steps|, text, caption, DelayLabel(el)))
  }

  /** The lines of step `k` of `n` given its box text, arrow caption and delay. */
  function StepChart(k: nat, n: nat, text: string, caption: Option<string>, delay: Option<string>): seq<ChartLine>
  {
    var origin := if k > 0 then StepRef(k - 1) else StartNode;
    var last := if k == n - 1 then [EndLink(k, delay)] else [];
    [StepBox(k, text), Link(origin, caption, k)] + last
  }

  /** The caption of the arrow to END: the step's `protocols_delay` when truthy. */
  function DelayLabel(el: Dict): Option<string>
  {
    var delay := Field(el, "protocols_delay");
    if Truthy(delay) then Some(ToStr(delay)) else None
  }

  function StepsFrom(steps: seq<JSON>, k: nat, vArr: JSON): Result<seq<ChartLine>>
    requires k <= |steps| && StepsOk(steps)
    decreases |steps| - k
  {
    if k == |steps| then Ok([])
    else
      var here :- StepLines(steps, k, vArr);
      var rest :- StepsFrom(steps, k + 1, vArr);
      Ok(here + rest)
  }

  /** The back arrow of a repeated set and its thicker line style. `idx` is the
      last step index seen so far in the whole chart, which a set without
      steps leaves at its earlier value. */
  function RepeatLines(element: Dict, idx: Option<int>): Result<seq<ChartLine>>
  {
    var repeats := Field(element, "set_repeats");
    if !Truthy(repeats) then Ok([])
    else if idx.None? then Err(UnboundLocalError("idx"))
    else BackArrowLines(idx.value, GetVariable(repeats, Field(element, "v_arrays")))
  }

  /** The back arrow from step `i` labelled with the resolved repeat count, and
      its line style; a failure to resolve the count is passed on. */
  function BackArrowLines(i: int, times: Result<JSON>): Result<seq<ChartLine>>
  {
    var t :- times;
    Ok([BackLink(i, ToStr(t)), LinkStyle(i + 2)])
  }

  /** The lines of a protocol set between START and END, and the step index
      `idx` holds after it. */
  function SetLines(element: Dict, idx: Option<int>): Result<(seq<ChartLine>, Option<int>)>
    requires Has(element, "_protocol_set_") && GroupOk(element)
  {
    var steps := Field(element, "_protocol_set_").items;
    var body :- StepsFrom(steps, 0, Field(element, "v_arrays"));
    var idxAfter := if |steps| > 0 then Some(|steps| - 1) else idx;
    var repeat :- RepeatLines(element, idxAfter);
    Ok((body + repeat, idxAfter))
  }

  /** The lines of a protocol without a set: one box `A0` between START and END,
      its pre-illumination resolved without variables. */
  function SingleLines(element: Dict): Result<seq<ChartLine>>
    requires WellFormedStep(element)
  {
    var text :- Content(element);
    var caption :- ArrowLabel(element, Null);
    Ok(StepChart(0, 1, text, caption, None))
  }

  /** The lines for one protocol of the list, and the step index `idx` holds after it. */
  function GroupLines(element: Dict, direction: string, idx: Option<int>): Result<(seq<ChartLine>, Option<int>)>
    requires GroupOk(element)
  {
    Framed(direction, Middle(element, idx))
  }

  /** The lines between START and END: a set's steps, or the single step. */
  function Middle(element: Dict, idx: Option<int>): Result<(seq<ChartLine>, Option<int>)>
    requires GroupOk(element)
  {
    if Has(element, "_protocol_set_") then SetLines(element, idx)
    else (var lines :- SingleLines(element); Ok((lines, idx)))
  }

  /** The lines of one protocol between its heading and START, and END and the
      class definition; a failure is passed on. */
  function Framed(direction: string, inner: Result<(seq<ChartLine>, Option<int>)>): Result<(seq<ChartLine>, Option<int>)>
  {
    var (middle, idxAfter) :- inner;
    Ok(([Header(direction), StartCircle] + middle + [EndCircle, ClassDef], idxAfter))
  }

  function ChartFrom(groups: seq<JSON>, g: nat, direction: string, idx: Option<int>): Result<seq<ChartLine>>
    requires g <= |groups|
    requires forall k :: 0 <= k < |groups| ==> groups[k].Obj? && GroupOk(groups[k].fields)
    decreases |groups| - g
  {
    if g == |groups| then Ok([])
    else
      var (lines, idxAfter) :- GroupLines(groups[g].fields, direction, idx);
      var rest :- ChartFrom(groups, g + 1, direction, idxAfter);
      Ok(lines + rest)
  }

  const NoProtocol := "No protocol provided to generate a flow-chart"
  const WrongProtocol := "Provided protocol needs to be a dictionary, list or string"
  const WrongDirection := "Direction must be provided as a string"
  const WrongStyles := "Styles must be provided as a dictionary"
  const NotJson := "Expecting value"

  /** The inputs `generate` accepts: a protocol string whose decoding `decoded`
      (the result of `json.loads`, `None` when the text is not JSON) is a
      document, or a document given directly. */
  predicate Inputs(protocol: JSON, decoded: Option<JSON>)
  {
    && (protocol.Str? && decoded.Some? ==> Document(decoded.value))
    && (protocol.Obj? || protocol.Arr? ==> Document(protocol))
  }

  /** `generate(protocol, direction, styles)`; `stylesJson` is `json.dumps(styles)`. */
  function GenerateSpec(protocol: JSON, direction: JSON, styles: JSON, decoded: Option<JSON>, stylesJson: string): (r: Result<string>)
    requires Inputs(protocol, decoded)
    ensures r.Ok? ==> direction.Str? && (styles.Null? || styles.Obj?)
                      && (protocol.Obj? || protocol.Arr? || (protocol.Str? && decoded.Some?))
    ensures protocol.Null? ==> r == Err(ValueError(NoProtocol))
    ensures !protocol.Null? && !(protocol.Str? || protocol.Obj? || protocol.Arr?) ==> r == Err(ValueError(WrongProtocol))
    ensures (protocol.Str? || protocol.Obj? || protocol.Arr?) && !direction.Str? ==> r == Err(ValueError(WrongDirection))
    ensures (protocol.Str? || protocol.Obj? || protocol.Arr?) && direction.Str? && !(styles.Null? || styles.Obj?) ==>
              r == Err(ValueError(WrongStyles))
    ensures protocol.Str? && decoded.None? && direction.Str? && (styles.Null? || styles.Obj?) ==> r == Err(ValueError(NotJson))
  {
    if protocol.Null? then Err(ValueError(NoProtocol))
    else if !(protocol.Str? || protocol.Obj? || protocol.Arr?) then Err(ValueError(WrongProtocol))
    else if !direction.Str? then Err(ValueError(WrongDirection))
    else if !(styles.Null? || styles.Obj?) then Err(ValueError(WrongStyles))
    else ChartText(protocol, direction.s, styles.Obj?, decoded, stylesJson)
  }

  /** The text `generate` builds once its inputs pass the checks: the theme
      preamble when styles are given, then the chart of the decoded document. */
  function ChartText(protocol: JSON, direction: string, themed: bool, decoded: Option<JSON>, stylesJson: string): Result<string>
    requires Inputs(protocol, decoded) && (protocol.Str? || protocol.Obj? || protocol.Arr?)
  {
    var theme := if themed then [Theme(stylesJson)] else [];
    var doc :- if protocol.Str? then (if decoded.Some? then Ok(decoded.value) else Err(ValueError(NotJson)))
               else Ok(protocol);
    DocumentGroups(doc);
    Extend(RenderAll(theme), ChartFrom(Groups(doc), 0, direction, None))
  }

  /** The protocols of a document: a lone object becomes a list of one. */
  function Groups(doc: JSON): seq<JSON>
    requires doc.Obj? || doc.Arr?
  {
    if doc.Obj? then [doc] else doc.items
  }

  lemma {:induction false} DocumentGroups(doc: JSON)
    requires Document(doc)
    ensures forall k :: 0 <= k < |Groups(doc)| ==> Groups(doc)[k].Obj? && GroupOk(Groups(doc)[k].fields)
  {
  }

  lemma {:induction false} Associative(a: string, b: string, c: string)
    ensures a + (b + c) == (a + b) + c
  {
  }

  /** `Ok(prefix + rest)` when `r` is `Ok(rest)`, the same error otherwise. */
  function Prepend(prefix: seq<ChartLine>, r: Result<seq<ChartLine>>): Result<seq<ChartLine>>
  {
    match r
    case Ok(rest) => Ok(prefix + rest)
    case Err(e) => Err(e)
  }

  lemma {:induction false} PrependNothing(r: Result<seq<ChartLine>>)
    ensures Prepend([], r) == r
  {
    if r.Ok? {
      assert [] + r.value == r.value;
    }
  }

  lemma {:induction false} PrependTwice(a: seq<ChartLine>, b: seq<ChartLine>, r: Result<seq<ChartLine>>)
    ensures Prepend(a, Prepend(b, r)) == Prepend(a + b, r)
  {
    if r.Ok? {
      assert a + (b + r.value) == (a + b) + r.value;
    }
  }

  /** `chart` followed by the text of the lines `r` holds, or the error of `r`. */
  function Extend(chart: string, r: Result<seq<ChartLine>>): Result<string>
  {
    match r
    case Ok(lines) => Ok(chart + RenderAll(lines))
    case Err(e) => Err(e)
  }

  lemma {:induction false} StepsFromStep(steps: seq<JSON>, k: nat, vArr: JSON)
    requires k < |steps| && StepsOk(steps)
    ensures StepsFrom(steps, k, vArr) ==
            match StepLines(steps, k, vArr)
            case Ok(here) => Prepend(here, StepsFrom(steps, k + 1, vArr))
            case Err(e) => Err(e)
  {
  }

  lemma {:induction false} ExtendDone(chart: string, done: seq<ChartLine>, lines: seq<ChartLine>)
    ensures chart + RenderAll(done) + RenderAll(lines) == chart + RenderAll(done + lines)
  {
    RenderAllAppend(done, lines);
    Associative(chart, RenderAll(done), RenderAll(lines));
  }

  /** The `for idx, el in enumerate(...)` loop over the steps of a set. */
  method AppendSteps(chart: string, steps: seq<JSON>, vArr: JSON) returns (r: Result<string>)
    requires StepsOk(steps)
    ensures r == Extend(chart, StepsFrom(steps, 0, vArr))
  {
    var out := chart;
    ghost var done: seq<ChartLine> := [];
    var i := 0;
    PrependNothing(StepsFrom(steps, 0, vArr));
    while i < |steps|
      invariant 0 <= i <= |steps|
      invariant out == chart + RenderAll(done)
      invariant StepsFrom(steps, 0, vArr) == Prepend(done, StepsFrom(steps, i, vArr))
    {
      var step := AppendStep(out, steps, i, vArr);
      if step.Err? {
        StepFails(steps, i, vArr, done);
        return Err(step.error);
      }
      ghost var lines := StepLines(steps, i, vArr).value;
      StepAdvances(steps, i, vArr, done);
      ExtendDone(chart, done, lines);
      out := step.value;
      done := done + lines;
      i := i + 1;
    }
    StepsFinish(steps, vArr, done);
    return Ok(out);
  }

  /** One pass of the loop: the step's lines appended to the chart text. */
  method AppendStep(out: string, steps: seq<JSON>, i: nat, vArr: JSON) returns (r: Result<string>)
    requires i < |steps| && StepsOk(steps)
    ensures r == Extend(out, StepLines(steps, i, vArr))
  {
    var lines := StepLines(steps, i, vArr);
    if lines.Err? {
      return Err(lines.error);
    }
    return Ok(out + RenderAll(lines.value));
  }

  lemma {:induction false} StepsFinish(steps: seq<JSON>, vArr: JSON, done: seq<ChartLine>)
    requires StepsOk(steps)
    requires StepsFrom(steps, 0, vArr) == Prepend(done, StepsFrom(steps, |steps|, vArr))
    ensures StepsFrom(steps, 0, vArr) == Ok(done)
  {
    assert done + [] == done;
  }

  lemma {:induction false} StepAdvances(steps: seq<JSON>, i: nat, vArr: JSON, done: seq<ChartLine>)
    requires StepsOk(steps) && i < |steps| && StepLines(steps, i, vArr).Ok?
    requires StepsFrom(steps, 0, vArr) == Prepend(done, StepsFrom(steps, i, vArr))
    ensures StepsFrom(steps, 0, vArr) == Prepend(done + StepLines(steps, i, vArr).value, StepsFrom(steps, i + 1, vArr))
  {
    StepsFromStep(steps, i, vArr);
    PrependTwice(done, StepLines(steps, i, vArr).value, StepsFrom(steps, i + 1, vArr));
  }

  lemma {:induction false} StepFails(steps: seq<JSON>, i: nat, vArr: JSON, done: seq<ChartLine>)
    requires StepsOk(steps) && i < |steps| && StepLines(steps, i, vArr).Err?
    requires StepsFrom(steps, 0, vArr) == Prepend(done, StepsFrom(steps, i, vArr))
    ensures StepsFrom(steps, 0, vArr) == Err(StepLines(steps, i, vArr).error)
  {
    StepsFromStep(steps, i, vArr);
  }

  lemma {:induction false} ChartFromStep(groups: seq<JSON>, g: nat, direction: string, idx: Option<int>)
    requires g < |groups|
    requires forall k :: 0 <= k < |groups| ==> groups[k].Obj? && GroupOk(groups[k].fields)
    ensures ChartFrom(groups, g, direction, idx) ==
            match GroupLines(groups[g].fields, direction, idx)
            case Ok((lines, idxAfter)) => Prepend(lines, ChartFrom(groups, g + 1, direction, idxAfter))
            case Err(e) => Err(e)
  {
  }

  /** The steps of a protocol set followed by its back arrow. */
  method AppendSet(chart: string, element: Dict, idx: Option<int>) returns (r: Result<(string, Option<int>)>)
    requires Has(element, "_protocol_set_") && GroupOk(element)
    ensures match SetLines(element, idx)
            case Ok((lines, idxAfter)) => r == Ok((chart + RenderAll(lines), idxAfter))
            case Err(e) => r == Err(e)
  {
    var steps := Field(element, "_protocol_set_").items;
    var vArr := Field(element, "v_arrays");
    var body := AppendSteps(chart, steps, vArr);
    if body.Err? {
      return Err(body.error);
    }
    var idxAfter := if |steps| > 0 then Some(|steps| - 1) else idx;
    var repeat := RepeatLines(element, idxAfter);
    if repeat.Err? {
      return Err(repeat.error);
    }
    ghost var bodyLines := StepsFrom(steps, 0, vArr).value;
    ExtendDone(chart, bodyLines, repeat.value);
    return Ok((body.value + RenderAll(repeat.value), idxAfter));
  }

  /** The body of the loop over the protocols of the list: appends one protocol's
      chart and returns the step index `idx` holds afterwards. */
  method AppendGroup(chart: string, element: Dict, direction: string, idx: Option<int>)
    returns (r: Result<(string, Option<int>)>)
    requires GroupOk(element)
    ensures match GroupLines(element, direction, idx)
            case Ok((lines, idxAfter)) => r == Ok((chart + RenderAll(lines), idxAfter))
            case Err(e) => r == Err(e)
  {
    var head := [Header(direction), StartCircle];
    var tail := [EndCircle, ClassDef];
    var out := chart + RenderAll(head);
    var middle: seq<ChartLine>;
    var idxAfter := idx;
    if Has(element, "_protocol_set_") {
      var steps := AppendSet(out, element, idx);
      if steps.Err? {
        return Err(steps.error);
      }
      middle := SetLines(element, idx).value.0;
      out, idxAfter := steps.value.0, steps.value.1;
    } else {
      var single := SingleLines(element);
      if single.Err? {
        return Err(single.error);
      }
      middle := single.value;
      out := out + RenderAll(middle);
    }
    out := out + RenderAll(tail);
    ExtendDone(chart, head, middle);
    ExtendDone(chart, head + middle, tail);
    return Ok((out, idxAfter));
  }

  /** `generate` as the source writes it: checks its inputs, then walks the
      protocols appending Mermaid text to `chart`. */
  method Generate(protocol: JSON, direction: JSON, styles: JSON, decoded: Option<JSON>, stylesJson: string)
    returns (r: Result<string>)
    requires Inputs(protocol, decoded)
    ensures r == GenerateSpec(protocol, direction, styles, decoded, stylesJson)
  {
    if protocol.Null? {
      return Err(ValueError(NoProtocol));
    }
    if !(protocol.Str? || protocol.Obj? || protocol.Arr?) {
      return Err(ValueError(WrongProtocol));
    }
    if !direction.Str? {
      return Err(ValueError(WrongDirection));
    }
    if !(styles.Null? || styles.Obj?) {
      return Err(ValueError(WrongStyles));
    }
    r := GenerateChart(protocol, direction.s, styles.Obj?, decoded, stylesJson);
  }

  /** The body of `generate` after the checks: the theme preamble, the decoding
      of a protocol string, then the loop over the protocols. */
  method GenerateChart(protocol: JSON, direction: string, themed: bool, decoded: Option<JSON>, stylesJson: string)
    returns (r: Result<string>)
    requires Inputs(protocol, decoded) && (protocol.Str? || protocol.Obj? || protocol.Arr?)
    ensures r == ChartText(protocol, direction, themed, decoded, stylesJson)
  {
    var chart := "";
    var theme: seq<ChartLine> := [];
    if themed {
      theme := [Theme(stylesJson)];
      chart := chart + RenderAll(theme);
    }
    var doc := protocol;
    if protocol.Str? {
      if decoded.None? {
        return Err(ValueError(NotJson));
      }
      doc := decoded.value;
    }
    assert chart == RenderAll(theme);
    DocumentGroups(doc);
    r := AppendChart(chart, Groups(doc), direction);
  }

  /** The loop over the protocols of the list. */
  method AppendChart(chart: string, groups: seq<JSON>, direction: string) returns (r: Result<string>)
    requires forall k :: 0 <= k < |groups| ==> groups[k].Obj? && GroupOk(groups[k].fields)
    ensures r == Extend(chart, ChartFrom(groups, 0, direction, None))
  {
    var out := chart;
    ghost var done: seq<ChartLine> := [];
    var idx: Option<int> := None;
    var g := 0;
    PrependNothing(ChartFrom(groups, 0, direction, None));
    while g < |groups|
      invariant 0 <= g <= |groups|
      invariant out == chart + RenderAll(done)
      invariant ChartFrom(groups, 0, direction, None) == Prepend(done, ChartFrom(groups, g, direction, idx))
    {
      var step := AppendGroup(out, groups[g].fields, direction, idx);
      if step.Err? {
        GroupFails(groups, g, direction, idx, done);
        return Err(step.error);
      }
      ghost var lines := GroupLines(groups[g].fields, direction, idx).value.0;
      GroupAdvances(groups, g, direction, idx, done);
      ExtendDone(chart, done, lines);
      out, idx := step.value.0, step.value.1;
      done := done + lines;
      g := g + 1;
    }
    ChartFinish(groups, direction, idx, done);
    return Ok(out);
  }

  lemma {:induction false} GroupFails(groups: seq<JSON>, g: nat, direction: string, idx: Option<int>, done: seq<ChartLine>)
    requires g < |groups|
    requires forall k :: 0 <= k < |groups| ==> groups[k].Obj? && GroupOk(groups[k].fields)
    requires GroupLines(groups[g].fields, direction, idx).Err?
    requires ChartFrom(groups, 0, direction, None) == Prepend(done, ChartFrom(groups, g, direction, idx))
    ensures ChartFrom(groups, 0, direction, None) == Err(GroupLines(groups[g].fields, direction, idx).error)
  {
    ChartFromStep(groups, g, direction, idx);
  }

  lemma {:induction false} GroupAdvances(groups: seq<JSON>, g: nat, direction: string, idx: Option<int>, done: seq<ChartLine>)
    requires g < |groups|
    requires forall k :: 0 <= k < |groups| ==> groups[k].Obj? && GroupOk(groups[k].fields)
    requires GroupLines(groups[g].fields, direction, idx).Ok?
    requires ChartFrom(groups, 0, direction, None) == Prepend(done, ChartFrom(groups, g, direction, idx))
    ensures var (lines, idxAfter) := GroupLines(groups[g].fields, direction, idx).value;
            ChartFrom(groups, 0, direction, None) == Prepend(done + lines, ChartFrom(groups, g + 1, direction, idxAfter))
  {
    ChartFromStep(groups, g, direction, idx);
    var (lines, idxAfter) := GroupLines(groups[g].fields, direction, idx).value;
    PrependTwice(done, lines, ChartFrom(groups, g + 1, direction, idxAfter));
  }

  lemma {:induction false} ChartFinish(groups: seq<JSON>, direction: string, idx: Option<int>, done: seq<ChartLine>)
    requires forall k :: 0 <= k < |groups| ==> groups[k].Obj? && GroupOk(groups[k].fields)
    requires ChartFrom(groups, 0, direction, None) == Prepend(done, ChartFrom(groups, |groups|, direction, idx))
    ensures ChartFrom(groups, 0, direction, None) == Ok(done)
  {
    assert done + [] == done;
  }

  /** The lines of step `k` of `n`: box `A<k>`, the arrow into it from the
      previous node with its caption and, for the last step, the arrow to END
      with its delay. */
  lemma {:induction false} StepChartShape(k: nat, n: nat, text: string, caption: Option<string>, delay: Option<string>)
    requires k < n
    ensures var here := StepChart(k, n, text, caption, delay);
            && Boxes(here) == [k]
            && Edges(here) == (if k == n - 1 then [ChainEdge(n, k), ChainEdge(n, n)] else [ChainEdge(n, k)])
            && |here| >= 2 && here[1] == Link(ChainEdge(n, k).0, caption, k)
            && (k == n - 1 ==> here[|here| - 1] == EndLink(k, delay))
  {
    var here := StepChart(k, n, text, caption, delay);
    assert here[2..] == (if k == n - 1 then [EndLink(k, delay)] else []);
    assert Boxes(here[2..]) == [];
    assert Edges(here[1..]) == Edges([here[1]]) + Edges(here[2..]);
  }

  lemma {:induction false} StepLinesChart(steps: seq<JSON>, k: nat, vArr: JSON)
    requires k < |steps| && StepsOk(steps) && StepLines(steps, k, vArr).Ok?
    ensures var el := steps[k].fields;
            StepLines(steps, k, vArr).value ==
            StepChart(k, |steps|, Content(el).value, ArrowLabel(el, vArr).value, DelayLabel(el))
  {
  }

  /** The step numbers `k`, `k + 1`, ..., `n - 1`. */
  function Range(k: int, n: int): (r: seq<int>)
    ensures |r| == if k < n then n - k else 0
    ensures forall j :: 0 <= j < |r| ==> r[j] == k + j
    decreases n - k
  {
    if k >= n then [] else [k] + Range(k + 1, n)
  }

  /** `body` holds the arrows of the chain from arrow `k` on, the boxes `A<k>` to
      `A<n-1>`, and ends with `last`. */
  predicate ChainFrom(body: seq<ChartLine>, k: nat, n: nat, last: ChartLine)
    requires k < n
  {
    && Edges(body) == Chain(n)[k..]
    && Boxes(body) == Range(k, n)
    && |body| > 0 && Last(body) == last
  }

  lemma {:induction false} RangeLast(n: int)
    ensures Range(n - 1, n) == [n - 1]
  {
    assert Range(n, n) == [];
  }

  lemma {:induction false} ChainLast(n: nat)
    requires n > 0
    ensures Chain(n)[n - 1..] == [ChainEdge(n, n - 1), ChainEdge(n, n)]
  {
    var tail := Chain(n)[n - 1..];
    assert |tail| == 2 && tail[0] == ChainEdge(n, n - 1) && tail[1] == ChainEdge(n, n);
  }

  lemma {:induction false} ChainCons(n: nat, k: nat)
    requires k < n
    ensures Chain(n)[k..] == [ChainEdge(n, k)] + Chain(n)[k + 1..]
  {
  }

  /** The arrows of the steps from `k` on are the chain from its arrow `k` on. */
  lemma {:induction false} StepsEdges(steps: seq<JSON>, k: nat, vArr: JSON)
    requires k < |steps| && StepsOk(steps) && StepsFrom(steps, k, vArr).Ok?
    ensures Edges(StepsFrom(steps, k, vArr).value) == Chain(|steps|)[k..]
    decreases |steps| - k
  {
    var n := |steps|;
    StepHead(steps, k, vArr);
    var here := StepLines(steps, k, vArr).value;
    if k == n - 1 {
      ChainLast(n);
    } else {
      var rest := StepsFrom(steps, k + 1, vArr).value;
      StepsEdges(steps, k + 1, vArr);
      EdgesAppend(here, rest);
      ChainCons(n, k);
    }
  }

  /** The boxes of the steps from `k` on are `A<k>` to `A<n-1>`. */
  lemma {:induction false} StepsBoxes(steps: seq<JSON>, k: nat, vArr: JSON)
    requires k < |steps| && StepsOk(steps) && StepsFrom(steps, k, vArr).Ok?
    ensures Boxes(StepsFrom(steps, k, vArr).value) == Range(k, |steps|)
    decreases |steps| - k
  {
    var n := |steps|;
    StepHead(steps, k, vArr);
    var here := StepLines(steps, k, vArr).value;
    if k == n - 1 {
      RangeLast(n);
    } else {
      var rest := StepsFrom(steps, k + 1, vArr).value;
      StepsBoxes(steps, k + 1, vArr);
      BoxesAppend(here, rest);
      assert Range(k, n) == [k] + Range(k + 1, n);
    }
  }

  /** The steps from `k` on end with the arrow to END carrying the last step's
      delay. */
  lemma {:induction false} StepsLast(steps: seq<JSON>, k: nat, vArr: JSON)
    requires k < |steps| && StepsOk(steps) && StepsFrom(steps, k, vArr).Ok?
    ensures |StepsFrom(steps, k, vArr).value| > 0
    ensures Last(StepsFrom(steps, k, vArr).value) == EndLink(|steps| - 1, DelayLabel(steps[|steps| - 1].fields))
    decreases |steps| - k
  {
    StepHead(steps, k, vArr);
    if k < |steps| - 1 {
      var here := StepLines(steps, k, vArr).value;
      var rest := StepsFrom(steps, k + 1, vArr).value;
      StepsLast(steps, k + 1, vArr);
      LastAppend(here, rest);
    }
  }

  /** The last line of a non-empty list. */
  function Last(lines: seq<ChartLine>): ChartLine
    requires |lines| > 0
  {
    lines[|lines| - 1]
  }

  lemma {:induction false} LastAppend(a: seq<ChartLine>, b: seq<ChartLine>)
    requires |b| > 0
    ensures |a + b| > 0 && Last(a + b) == Last(b)
  {
  }

  /** The steps from `k` on draw the chain START -> A0 -> ... -> END from its
      arrow `k` on and the boxes `A<k>` to `A<n-1>`, and end with the arrow to END
      carrying the last step's delay. */
  lemma {:induction false} StepsShape(steps: seq<JSON>, k: nat, vArr: JSON)
    requires k < |steps| && StepsOk(steps) && StepsFrom(steps, k, vArr).Ok?
    ensures ChainFrom(StepsFrom(steps, k, vArr).value, k, |steps|,
                      EndLink(|steps| - 1, DelayLabel(steps[|steps| - 1].fields)))
  {
    StepsEdges(steps, k, vArr);
    StepsBoxes(steps, k, vArr);
    StepsLast(steps, k, vArr);
  }

  /** Step `k` draws its box and its arrow, followed by the later steps. */
  lemma {:induction false} StepHead(steps: seq<JSON>, k: nat, vArr: JSON)
    requires k < |steps| && StepsOk(steps) && StepsFrom(steps, k, vArr).Ok?
    ensures StepLines(steps, k, vArr).Ok?
    ensures var here := StepLines(steps, k, vArr).value;
            var n := |steps|;
            && Boxes(here) == [k]
            && Edges(here) == (if k == n - 1 then [ChainEdge(n, k), ChainEdge(n, n)] else [ChainEdge(n, k)])
            && |here| > 0
            && (k == n - 1 ==> here[|here| - 1] == EndLink(k, DelayLabel(steps[k].fields)))
            && (k + 1 < n ==> StepsFrom(steps, k + 1, vArr).Ok?
                              && StepsFrom(steps, k, vArr).value == here + StepsFrom(steps, k + 1, vArr).value)
            && (k + 1 == n ==> StepsFrom(steps, k, vArr).value == here)
  {
    var el := steps[k].fields;
    StepsFromStep(steps, k, vArr);
    StepLinesChart(steps, k, vArr);
    var here := StepLines(steps, k, vArr).value;
    StepChartShape(k, |steps|, Content(el).value, ArrowLabel(el, vArr).value, DelayLabel(el));
    if k + 1 == |steps| {
      assert StepsFrom(steps, k + 1, vArr) == Ok([]);
      assert here + [] == here;
    }
  }

  /** A protocol set of `n > 0` steps draws the boxes A0 to A<n-1> and the chain
      START -> A0 -> ... -> END and, exactly when `set_repeats` is truthy, the
      dashed arrow from the last box back to A0, whose line style is set on the
      link with that arrow's position among the arrows. Afterwards `idx` is the
      last step. */
  lemma {:induction false} SetShape(element: Dict, idx: Option<int>)
    requires Has(element, "_protocol_set_") && GroupOk(element) && SetLines(element, idx).Ok?
    requires |Field(element, "_protocol_set_").items| > 0
    ensures var (lines, idxAfter) := SetLines(element, idx).value;
            var steps := Field(element, "_protocol_set_").items;
            var n := |steps|;
            var repeats := Field(element, "set_repeats");
            && idxAfter == Some(n - 1)
            && Boxes(lines) == Range(0, n)
            && Edges(lines) == Chain(n) + (if Truthy(repeats) then [(StepRef(n - 1), StepRef(0))] else [])
            && |lines| >= 1
            && (Truthy(repeats) ==> lines[|lines| - 1] == LinkStyle(|Edges(lines)| - 1))
            && (!Truthy(repeats) ==> lines[|lines| - 1] == EndLink(n - 1, DelayLabel(steps[n - 1].fields)))
  {
    var steps := Field(element, "_protocol_set_").items;
    var n := |steps|;
    var vArr := Field(element, "v_arrays");
    var repeats := Field(element, "set_repeats");
    SetLinesSplit(element, idx);
    StepsShape(steps, 0, vArr);
    RepeatLinesForm(element, n - 1);
    var times := if Truthy(repeats) then ToStr(GetVariable(repeats, vArr).value) else "";
    SetChartShape(StepsFrom(steps, 0, vArr).value, n, EndLink(n - 1, DelayLabel(steps[n - 1].fields)), Truthy(repeats), times);
  }

  /** The back arrow of a repeated set is labelled with `set_repeats` resolved
      against the set's `v_arrays`. */
  lemma {:induction false} SetBackArrow(element: Dict, idx: Option<int>)
    requires Has(element, "_protocol_set_") && GroupOk(element) && SetLines(element, idx).Ok?
    requires |Field(element, "_protocol_set_").items| > 0 && Truthy(Field(element, "set_repeats"))
    ensures var lines := SetLines(element, idx).value.0;
            var n := |Field(element, "_protocol_set_").items|;
            var times := GetVariable(Field(element, "set_repeats"), Field(element, "v_arrays"));
            && times.Ok? && |lines| >= 2
            && lines[|lines| - 2] == BackLink(n - 1, ToStr(times.value))
  {
    var steps := Field(element, "_protocol_set_").items;
    var n := |steps|;
    var vArr := Field(element, "v_arrays");
    var repeats := Field(element, "set_repeats");
    SetLinesSplit(element, idx);
    RepeatLinesForm(element, n - 1);
    var body := StepsFrom(steps, 0, vArr).value;
    var repeat := RepeatLines(element, Some(n - 1)).value;
    assert (body + repeat)[|body + repeat| - 2] == repeat[0];
  }

  lemma {:induction false} BackArrow(i: int, times: string)
    ensures Edges([BackLink(i, times), LinkStyle(i + 2)]) == [(StepRef(i), StepRef(0))]
    ensures Boxes([BackLink(i, times), LinkStyle(i + 2)]) == []
  {
    var repeat := [BackLink(i, times), LinkStyle(i + 2)];
    assert repeat[1..] == [LinkStyle(i + 2)];
    assert repeat[1..][1..] == [];
    assert Edges(repeat[1..]) == LineEdges(LinkStyle(i + 2)) + Edges([]) == [];
    assert Boxes(repeat[1..]) == LineBoxes(LinkStyle(i + 2)) + Boxes([]) == [];
    assert Edges(repeat) == LineEdges(BackLink(i, times)) + Edges(repeat[1..]);
    assert Boxes(repeat) == LineBoxes(BackLink(i, times)) + Boxes(repeat[1..]);
  }

  lemma {:induction false} SetChartShape(body: seq<ChartLine>, n: nat, last: ChartLine, repeating: bool, times: string)
    requires n > 0 && ChainFrom(body, 0, n, last)
    ensures var lines := body + (if repeating then [BackLink(n - 1, times), LinkStyle(n + 1)] else []);
            && Boxes(lines) == Range(0, n)
            && Edges(lines) == Chain(n) + (if repeating then [(StepRef(n - 1), StepRef(0))] else [])
            && |Edges(lines)| - 1 == (if repeating then n + 1 else n)
            && |lines| >= 1
            && lines[|lines| - 1] == (if repeating then LinkStyle(n + 1) else last)
            && (repeating ==> |lines| >= 2 && lines[|lines| - 2] == BackLink(n - 1, times))
  {
    var repeat := if repeating then [BackLink(n - 1, times), LinkStyle(n + 1)] else [];
    assert Chain(n)[0..] == Chain(n);
    EdgesAppend(body, repeat);
    BoxesAppend(body, repeat);
    if repeating {
      BackArrow(n - 1, times);
      assert Boxes(body) + [] == Boxes(body);
    } else {
      assert body + [] == body;
    }
  }

  /** A protocol without a set draws the box A0 and the arrows START -> A0 -> END:
      the first captioned with its start and its pre-illumination resolved without
      variable arrays, the second never captioned. */
  lemma {:induction false} SingleShape(element: Dict)
    requires WellFormedStep(element) && SingleLines(element).Ok?
    ensures var lines := SingleLines(element).value;
            && Boxes(lines) == [0]
            && Edges(lines) == Chain(1)
            && |lines| == 3
            && lines[1] == Link(StartNode, ArrowLabel(element, Null).value, 0)
            && lines[2] == EndLink(0, None)
  {
    SingleChart(Content(element).value, ArrowLabel(element, Null).value);
  }

  /** The lines of a lone step: its box, the arrow from START and the arrow to
      END. */
  lemma {:induction false} SingleChart(text: string, caption: Option<string>)
    ensures var lines := StepChart(0, 1, text, caption, None);
            && Boxes(lines) == [0]
            && Edges(lines) == Chain(1)
            && |lines| == 3
            && lines[1] == Link(StartNode, caption, 0)
            && lines[2] == EndLink(0, None)
  {
    var lines := StepChart(0, 1, text, caption, None);
    StepChartShape(0, 1, text, caption, None);
    ChainLast(1);
    assert Chain(1)[0..] == Chain(1);
  }

  lemma {:induction false} SetLinesSplit(element: Dict, idx: Option<int>)
    requires Has(element, "_protocol_set_") && GroupOk(element) && SetLines(element, idx).Ok?
    requires |Field(element, "_protocol_set_").items| > 0
    ensures var steps := Field(element, "_protocol_set_").items;
            var vArr := Field(element, "v_arrays");
            && StepsFrom(steps, 0, vArr).Ok?
            && RepeatLines(element, Some(|steps| - 1)).Ok?
            && SetLines(element, idx).value ==
               (StepsFrom(steps, 0, vArr).value + RepeatLines(element, Some(|steps| - 1)).value, Some(|steps| - 1))
  {
  }

  lemma {:induction false} RepeatLinesForm(element: Dict, i: int)
    requires RepeatLines(element, Some(i)).Ok?
    ensures var repeats := Field(element, "set_repeats");
            var times := GetVariable(repeats, Field(element, "v_arrays"));
            && (Truthy(repeats) ==> times.Ok?)
            && RepeatLines(element, Some(i)).value ==
               if Truthy(repeats) then [BackLink(i, ToStr(times.value)), LinkStyle(i + 2)] else []
  {
    if Truthy(Field(element, "set_repeats")) {
      RepeatLinesOk(element, i);
      RepeatLinesOf(element, i, GetVariable(Field(element, "set_repeats"), Field(element, "v_arrays")).value);
    } else {
      RepeatLinesNone(element, i);
    }
  }

  lemma {:induction false} RepeatLinesOk(element: Dict, i: int)
    requires RepeatLines(element, Some(i)).Ok? && Truthy(Field(element, "set_repeats"))
    ensures GetVariable(Field(element, "set_repeats"), Field(element, "v_arrays")).Ok?
  {
  }

  lemma {:induction false} RepeatLinesNone(element: Dict, i: int)
    requires !Truthy(Field(element, "set_repeats"))
    ensures RepeatLines(element, Some(i)) == Ok([])
  {
  }

  /** A set whose `set_repeats` is the length reference `#l<N>` to an existing
      row of its `v_arrays` (the infrared LED calibration protocol uses "#l0") has
      its back arrow labelled with that row's length. */
  lemma {:induction false} RepeatLengthLabel(element: Dict, i: int, rows: seq<JSON>, n: nat)
    requires Field(element, "set_repeats") == Str("#l" + IntToString(n))
    requires Field(element, "v_arrays") == Arr(rows)
    requires n < |rows| && rows[n].Arr?
    ensures RepeatLines(element, Some(i)) == Ok([BackLink(i, IntToString(|rows[n].items|)), LinkStyle(i + 2)])
  {
    var m := |rows[n].items|;
    LengthToken(Field(element, "set_repeats"), Field(element, "v_arrays"), rows, n);
    RepeatLinesOf(element, i, Int(m));
    IntCaption(i, m);
  }

  lemma {:induction false} IntCaption(i: int, m: int)
    ensures [BackLink(i, ToStr(Int(m))), LinkStyle(i + 2)] == [BackLink(i, IntToString(m)), LinkStyle(i + 2)]
  {
    assert ToStr(Int(m)) == IntToString(m);
  }

  lemma {:induction false} LengthToken(token: JSON, vArr: JSON, rows: seq<JSON>, n: nat)
    requires token == Str("#l" + IntToString(n)) && vArr == Arr(rows) && n < |rows| && rows[n].Arr?
    ensures GetVariable(token, vArr) == Ok(Int(|rows[n].items|))
  {
    ResolvesLength(rows, n);
  }

  lemma {:induction false} RepeatLinesOf(element: Dict, i: int, times: JSON)
    requires Truthy(Field(element, "set_repeats"))
    requires GetVariable(Field(element, "set_repeats"), Field(element, "v_arrays")) == Ok(times)
    ensures RepeatLines(element, Some(i)) == Ok([BackLink(i, ToStr(times)), LinkStyle(i + 2)])
  {
  }

  /** The chart opens with the theme preamble exactly when styles are given, and
      otherwise with the heading of the first protocol (or is empty for an empty
      list). */
  lemma {:induction false} GenerateOpening(protocol: JSON, direction: JSON, styles: JSON, decoded: Option<JSON>, stylesJson: string)
    requires Inputs(protocol, decoded) && GenerateSpec(protocol, direction, styles, decoded, stylesJson).Ok?
    ensures var text := GenerateSpec(protocol, direction, styles, decoded, stylesJson).value;
            && direction.Str? && (styles.Null? || styles.Obj?)
            && (styles.Obj? ==> StartsWith(text, Render(Theme(stylesJson))))
            && (styles.Null? ==> text == "" || StartsWith(text, "flowchart " + direction.s + "\n"))
  {
    GenerateText(protocol, direction, styles, decoded, stylesJson);
    var doc := if protocol.Str? then decoded.value else protocol;
    ChartHeading(Groups(doc), direction.s);
    Opening(if styles.Obj? then [Theme(stylesJson)] else [], ChartFrom(Groups(doc), 0, direction.s, None).value,
            direction.s, stylesJson);
  }

  /** The text of an optional theme line followed by chart lines that are empty
      or open with a heading. */
  lemma {:induction false} Opening(theme: seq<ChartLine>, lines: seq<ChartLine>, direction: string, stylesJson: string)
    requires theme == [] || theme == [Theme(stylesJson)]
    requires |lines| > 0 ==> lines[0] == Header(direction)
                             && RenderAll(lines) == Render(Header(direction)) + RenderAll(lines[1..])
    ensures theme != [] ==> StartsWith(RenderAll(theme) + RenderAll(lines), Render(Theme(stylesJson)))
    ensures theme == [] ==> RenderAll(theme) + RenderAll(lines) == ""
                            || StartsWith(RenderAll(theme) + RenderAll(lines), "flowchart " + direction + "\n")
  {
    if theme != [] {
      PrefixOf(Render(Theme(stylesJson)), RenderAll([]) + RenderAll(lines));
      assert RenderAll(theme) == Render(Theme(stylesJson)) + RenderAll([]);
    } else {
      assert RenderAll(theme) + RenderAll(lines) == RenderAll(lines);
      if |lines| > 0 {
        PrefixOf(Render(Header(direction)), RenderAll(lines[1..]));
      }
    }
  }

  /** The text `generate` returns: the theme preamble, if any, then the lines of
      every protocol. */
  lemma {:induction false} GenerateText(protocol: JSON, direction: JSON, styles: JSON, decoded: Option<JSON>, stylesJson: string)
    requires Inputs(protocol, decoded) && GenerateSpec(protocol, direction, styles, decoded, stylesJson).Ok?
    ensures var doc := if protocol.Str? then decoded.value else protocol;
            var theme := if styles.Obj? then [Theme(stylesJson)] else [];
            && direction.Str? && (styles.Null? || styles.Obj?)
            && (protocol.Str? ==> decoded.Some?)
            && Document(doc)
            && (forall k :: 0 <= k < |Groups(doc)| ==> Groups(doc)[k].Obj? && GroupOk(Groups(doc)[k].fields))
            && ChartFrom(Groups(doc), 0, direction.s, None).Ok?
            && GenerateSpec(protocol, direction, styles, decoded, stylesJson).value
               == RenderAll(theme) + RenderAll(ChartFrom(Groups(doc), 0, direction.s, None).value)
  {
    var doc := if protocol.Str? then decoded.value else protocol;
    DocumentGroups(doc);
  }

  lemma {:induction false} PrefixOf(head: string, tail: string)
    ensures StartsWith(head + tail, head)
  {
    assert (head + tail)[..|head|] == head;
  }

  /** A chart of at least one protocol opens with that protocol's heading. */
  lemma {:induction false} ChartHeading(groups: seq<JSON>, direction: string)
    requires forall k :: 0 <= k < |groups| ==> groups[k].Obj? && GroupOk(groups[k].fields)
    requires ChartFrom(groups, 0, direction, None).Ok?
    ensures var lines := ChartFrom(groups, 0, direction, None).value;
            (|lines| == 0 <==> |groups| == 0)
            && (|lines| > 0 ==> lines[0] == Header(direction)
                                && RenderAll(lines) == Render(Header(direction)) + RenderAll(lines[1..]))
  {
    if |groups| > 0 {
      ChartFromStep(groups, 0, direction, None);
      GroupHeading(groups[0].fields, direction, None);
    }
  }

  lemma {:induction false} GroupHeading(element: Dict, direction: string, idx: Option<int>)
    requires GroupOk(element) && GroupLines(element, direction, idx).Ok?
    ensures var lines := GroupLines(element, direction, idx).value.0;
            |lines| >= 4 && lines[0] == Header(direction) && lines[1] == StartCircle
            && lines[|lines| - 2] == EndCircle && lines[|lines| - 1] == ClassDef
  {
    FramedShape(direction, Middle(element, idx));
  }

  lemma {:induction false} FramedShape(direction: string, inner: Result<(seq<ChartLine>, Option<int>)>)
    requires Framed(direction, inner).Ok?
    ensures var lines := Framed(direction, inner).value.0;
            |lines| >= 4 && lines[0] == Header(direction) && lines[1] == StartCircle
            && lines[|lines| - 2] == EndCircle && lines[|lines| - 1] == ClassDef
  {
  }
}
