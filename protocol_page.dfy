/** The text fragments of a protocol's documentation page (`module_rst`): the
    page title taken from the module docstring, the flowchart direction and
    indentation, the validation warning, the settings paragraph and entries, the
    example-data table and the title underline. Importing modules, running
    analyses, pretty-printing, template substitution and file output are not
    part of the model. */
module ProtocolPage {
  import opened Runtime
  import opened Text
  import opened Json
  import Ids
  import Validate

  // ---------------------------------------------------------------------------
  // Page title

  /** A reStructuredText underline: once stripped, one character from `=-~^`
      repeated. */
  predicate IsUnderline(line: string)
  {
    var t := Strip(line);
    |t| > 0 && (forall j :: 0 <= j < |t| ==> t[j] == t[0]) && t[0] in "=-~^"
  }

  /** Line `i` of the docstring is a title: it is not blank and the next line
      underlines it. */
  predicate TitleAt(doc: seq<string>, i: int)
    requires 0 <= i < |doc| - 1
  {
    Strip(doc[i]) != "" && doc[i + 1] != "" && IsUnderline(doc[i + 1])
  }

  /** For each line but the last, whether it is a title. */
  function Titles(doc: seq<string>): (r: seq<bool>)
    ensures |r| == if |doc| == 0 then 0 else |doc| - 1
    ensures forall j :: 0 <= j < |r| ==> (r[j] <==> TitleAt(doc, j))
  {
    seq(if |doc| == 0 then 0 else |doc| - 1, j requires 0 <= j < |doc| - 1 => TitleAt(doc, j))
  }

  /** The first `true` at or after position `i`. */
  function FirstTrue(bs: seq<bool>, i: nat): (r: Option<nat>)
    ensures r.Some? ==> i <= r.value < |bs| && bs[r.value] && forall j :: i <= j < r.value ==> !bs[j]
    ensures r.None? ==> forall j :: i <= j < |bs| ==> !bs[j]
    decreases |bs| - i
  {
    if i >= |bs| then None
    else if bs[i] then Some(i)
    else FirstTrue(bs, i + 1)
  }

  /** The page title: the first title line of the docstring, stripped, or the
      module name when the docstring has none. A module without a docstring
      (`__doc__` is `None`) fails with `AttributeError` on `split`. */
  function Header(docstring: Option<string>, moduleName: string): (r: Result<string>)
    ensures docstring.None? <==> r.Err?
    ensures docstring.Some? ==>
              var doc := Split(docstring.value, '\n');
              match FirstTrue(Titles(doc), 0)
              case Some(i) => TitleAt(doc, i) && r.value == Strip(doc[i]) && forall j :: 0 <= j < i ==> !TitleAt(doc, j)
              case None => r.value == moduleName && forall j :: 0 <= j < |doc| - 1 ==> !TitleAt(doc, j)
  {
    match docstring
    case None => Err(AttributeError)
    case Some(text) =>
      var doc := Split(text, '\n');
      match FirstTrue(Titles(doc), 0)
      case Some(i) => Ok(Strip(doc[i]))
      case None => Ok(moduleName)
  }

  /** The loop that looks for the title, stopping at the first one. */
  method FindHeader(docstring: Option<string>, moduleName: string) returns (r: Result<string>)
    ensures r == Header(docstring, moduleName)
  {
    if docstring.None? {
      return Err(AttributeError);
    }
    var doc := Split(docstring.value, '\n');
    ghost var titles := Titles(doc);
    var header := moduleName;
    var i := 0;
    while i < |doc| - 1
      invariant 0 <= i
      invariant FirstTrue(titles, 0) == FirstTrue(titles, i)
    {
      if Strip(doc[i]) != "" && doc[i + 1] != "" && IsUnderline(doc[i + 1]) {
        assert titles[i];
        header := Strip(doc[i]);
        break;
      }
      assert !titles[i];
      i := i + 1;
    }
    return Ok(header);
  }

  /** A docstring that opens with a title and its underline is titled by that
      line, stripped. */
  lemma {:induction false} HeaderFirstLine(title: string, underline: string, rest: string, moduleName: string)
    requires '\n' !in title && '\n' !in underline
    requires Strip(title) != "" && underline != "" && IsUnderline(underline)
    ensures Header(Some(title + "\n" + underline + "\n" + rest), moduleName) == Ok(Strip(title))
  {
    var doc := Split(title + "\n" + underline + "\n" + rest, '\n');
    assert title + "\n" + underline + "\n" + rest == title + ['\n'] + (underline + ['\n'] + rest);
    SplitPrefix(underline, rest, '\n');
    SplitPrefix(title, underline + ['\n'] + rest, '\n');
    assert doc[0] == title && doc[1] == underline;
    assert Titles(doc)[0];
  }

  /** The page heading: the title over a line of `=` exactly as long. */
  function PageHeader(header: string): string
  {
    header + "\n" + Repeat('=', |header|)
  }

  /** A one-line title reads back from the heading, underlined by as many `=`
      as it has characters. */
  lemma {:induction false} PageHeaderLines(header: string)
    requires '\n' !in header
    ensures Split(PageHeader(header), '\n') == [header, Repeat('=', |header|)]
    ensures |Split(PageHeader(header), '\n')[1]| == |header|
  {
    var u := Repeat('=', |header|);
    assert '\n' !in u;
    assert PageHeader(header) == header + ['\n'] + u;
    SplitPrefix(header, u, '\n');
    SplitNoSeparator(u, '\n');
  }

  // ---------------------------------------------------------------------------
  // Flowchart

  /** `"TD" if len(first.get("_protocol_set_", "")) > 1 else "LR"` for the first
      protocol of the list. */
  function FirstDirection(first: JSON): Result<string>
  {
    if !first.Obj? then Err(AttributeError)
    else
      var n :- Len(if Has(first.fields, "_protocol_set_") then Field(first.fields, "_protocol_set_") else Str(""));
      Ok(if n > 1 then "TD" else "LR")
  }

  /** The flowchart direction as written: `protocol_code[0]`, which for a single
      protocol given as a dict looks up the key `0`. */
  function DirectionAsWritten(protocol: JSON): Result<string>
    requires protocol.Arr? || protocol.Obj?
  {
    var first :- Index(protocol, 0);
    FirstDirection(first)
  }

  /** The flowchart direction, with a single protocol given as a dict taken as
      the only protocol of the list, as the flowchart generator takes it. */
  function Direction(protocol: JSON): (r: Result<string>)
    requires protocol.Arr? || protocol.Obj?
    ensures protocol.Arr? ==> r == DirectionAsWritten(protocol)
  {
    if protocol.Obj? then FirstDirection(protocol) else DirectionAsWritten(protocol)
  }

  /** Top-down exactly when the first protocol is a set of more than one step;
      left-to-right for a single step or a one-step set. */
  lemma {:induction false} DirectionOfSet(protocol: JSON)
    requires protocol.Obj? || (protocol.Arr? && |protocol.items| > 0 && protocol.items[0].Obj?)
    ensures var first := if protocol.Obj? then protocol else protocol.items[0];
            var steps := Field(first.fields, "_protocol_set_");
            (Has(first.fields, "_protocol_set_") && steps.Arr? ==>
               Direction(protocol) == Ok(if |steps.items| > 1 then "TD" else "LR"))
            && (!Has(first.fields, "_protocol_set_") ==> Direction(protocol) == Ok("LR"))
  {
  }

  /** As written, a single protocol given as a dict stops the page with
      `KeyError: 0`, even a set of two steps that should be drawn top-down. */
  lemma {:induction false} DictProtocolRaises(steps: seq<JSON>)
    requires |steps| == 2
    ensures DirectionAsWritten(Obj([("_protocol_set_", Arr(steps))])) == Err(KeyError("0"))
    ensures Direction(Obj([("_protocol_set_", Arr(steps))])) == Ok("TD")
  {
    var fields := [("_protocol_set_", Arr(steps))];
    assert fields[0].0 == "_protocol_set_";
  }

  /** `text.splitlines()` for text whose line breaks are `\n`: the lines without
      their terminators, with no empty line after a final newline. */
  function SplitLines(text: string): (r: seq<string>)
    ensures forall k :: 0 <= k < |r| ==> '\n' !in r[k]
  {
    var parts := Split(text, '\n');
    if parts[|parts| - 1] == "" then parts[..|parts| - 1] else parts
  }

  /** The flowchart as placed in the page: every line indented by three spaces. */
  function IndentedChart(chart: string): string
  {
    Join(Indented("   ", SplitLines(chart)), "\n")
  }

  /** Every line of the placed flowchart is a line of the chart behind three
      spaces, in order. */
  lemma {:induction false} IndentedChartLines(chart: string)
    requires |SplitLines(chart)| > 0
    ensures Split(IndentedChart(chart), '\n') == Indented("   ", SplitLines(chart))
  {
    var parts := Indented("   ", SplitLines(chart));
    assert forall k :: 0 <= k < |parts| ==> '\n' !in parts[k] by {
      forall k | 0 <= k < |parts| ensures '\n' !in parts[k] {
        assert parts[k] == "   " + SplitLines(chart)[k];
      }
    }
    SplitJoin(parts, '\n');
  }

  /** A chart whose lines all end in a newline, as the generator writes it, is
      exactly its lines rejoined: indenting loses nothing but the terminators. */
  lemma {:induction false} SplitLinesRejoin(chart: string)
    requires |chart| > 0 && chart[|chart| - 1] == '\n'
    ensures |SplitLines(chart)| > 0
    ensures Join(SplitLines(chart), "\n") + "\n" == chart
  {
    var parts := Split(chart, '\n');
    JoinSplit(chart, '\n');
    if |parts| == 1 {
      assert false;
    } else {
      var init := parts[..|parts| - 1];
      var last := parts[|parts| - 1];
      assert parts == init + [last];
      JoinSnoc(init, last, "\n");
      assert last == "";
      assert Join(init, "\n") + "\n" + "" == Join(init, "\n") + "\n";
    }
  }

  // ---------------------------------------------------------------------------
  // Validation warning

  /** The warning shown for a protocol that fails validation: an
      reStructuredText `warning` directive. */
  const Warning := ".. warning:: " + FailedMessage
  const FailedMessage := "Protocol failed automated validation!"

  /** One `  + <error>` line per error, in order. */
  function ErrorLines(errors: seq<string>): string
  {
    if |errors| == 0 then ""
    else ErrorLines(errors[..|errors| - 1]) + "  + " + errors[|errors| - 1] + "\n"
  }

  /** The validation block: empty for a valid protocol, otherwise the heading
      followed by the error lines. */
  function ValidationText(isValid: bool, errors: seq<string>): string
  {
    if isValid then "" else "\n" + Warning + "\n\n" + ErrorLines(errors)
  }

  /** The loop that builds the validation block. */
  method ValidationResults(isValid: bool, errors: seq<string>) returns (out: string)
    ensures out == ValidationText(isValid, errors)
  {
    out := "";
    if !isValid {
      out := "\n" + Warning + "\n\n";
      var i := 0;
      while i < |errors|
        invariant 0 <= i <= |errors|
        invariant out == "\n" + Warning + "\n\n" + ErrorLines(errors[..i])
      {
        assert errors[..i + 1][..i] == errors[..i];
        out := out + "  + " + errors[i] + "\n";
        i := i + 1;
      }
      assert errors[..i] == errors;
    }
  }

  /** The error lines of errors without line breaks: one line per error. */
  function Bulleted(errors: seq<string>): (r: seq<string>)
    ensures |r| == |errors| && forall k :: 0 <= k < |errors| ==> r[k] == "  + " + errors[k]
  {
    if |errors| == 0 then [] else Bulleted(errors[..|errors| - 1]) + ["  + " + errors[|errors| - 1]]
  }

  lemma {:induction false} ErrorLinesSplit(errors: seq<string>, tail: string)
    requires forall k :: 0 <= k < |errors| ==> '\n' !in errors[k]
    ensures Split(ErrorLines(errors) + tail, '\n') == Bulleted(errors) + Split(tail, '\n')
    decreases |errors|
  {
    if |errors| > 0 {
      var init := errors[..|errors| - 1];
      var line := "  + " + errors[|errors| - 1];
      assert '\n' !in line;
      SplitPrefix(line, tail, '\n');
      assert ErrorLines(errors) == ErrorLines(init) + "  + " + errors[|errors| - 1] + "\n";
      LineGlue(ErrorLines(init), "  + ", errors[|errors| - 1], tail);
      ErrorLinesSplit(init, line + ['\n'] + tail);
      assert Bulleted(errors) == Bulleted(init) + [line];
    } else {
      assert ErrorLines(errors) + tail == tail;
    }
  }

  /** Regrouping one more line, ended by a newline, before a tail. */
  lemma {:induction false} LineGlue(before: string, bullet: string, error: string, tail: string)
    ensures before + bullet + error + "\n" + tail == before + (bullet + error + ['\n'] + tail)
  {
  }

  /** A line between blank lines, then the rest. */
  lemma {:induction false} SplitHeading(w: string, rest: string)
    requires '\n' !in w
    ensures Split("\n" + w + "\n\n" + rest, '\n') == ["", w, ""] + Split(rest, '\n')
  {
    var t2 := [] + ['\n'] + rest;
    var t1 := w + ['\n'] + t2;
    assert "\n" + w + "\n\n" + rest == [] + ['\n'] + t1;
    SplitPrefix([], rest, '\n');
    SplitPrefix(w, t2, '\n');
    SplitPrefix([], t1, '\n');
  }

  /** A failed validation reads back as the warning, then exactly one
      `  + <error>` line per error, in order. */
  lemma {:induction false} ValidationLines(errors: seq<string>)
    requires forall k :: 0 <= k < |errors| ==> '\n' !in errors[k]
    ensures Split(ValidationText(false, errors), '\n') == ["", Warning, ""] + (Bulleted(errors) + [""])
  {
    var lines := ErrorLines(errors);
    ErrorLinesSplit(errors, "");
    assert lines + "" == lines;
    assert Split("", '\n') == [""];
    var tail := Split(lines, '\n');
    assert tail == Bulleted(errors) + [""];
    WarningOneLine();
    SplitHeading(Warning, lines);
  }

  /** The warning is a single line. */
  lemma {:induction false} WarningOneLine()
    ensures '\n' !in Warning
  {
    assert '\n' !in ".. warning:: " && '\n' !in FailedMessage;
  }

  /** The validation block of the page, from what the validator reports for the
      protocol; an exception from the validator stops the page. */
  function ValidationSection(events: seq<Validate.Event>): Result<string>
  {
    var outcome :- Validate.Outcome(events);
    Ok(ValidationText(outcome.0, outcome.1))
  }

  /** The page shows no validation block exactly when the validator yields no
      error; otherwise the block has one line per yielded error. */
  lemma {:induction false} ValidationSectionEmpty(events: seq<Validate.Event>)
    requires ValidationSection(events).Ok?
    ensures ValidationSection(events).value == "" <==> Validate.Yielded(events) == []
    ensures ValidationSection(events).value != "" ==>
              ValidationSection(events).value == "\n" + Warning + "\n\n" + ErrorLines(Validate.Outcome(events).value.1)
              && |Validate.Outcome(events).value.1| == |Validate.Yielded(events)|
  {
    Validate.OutcomeValid(events);
    Validate.CollectedYielded(events);
  }

  // ---------------------------------------------------------------------------
  // Settings

  /** `ngettext('parameter', 'parameters', n)` without a translation catalogue. */
  function Noun(n: nat): (r: string)
    ensures r == "parameter" <==> n == 1
  {
    if n == 1 then "parameter" else "parameters"
  }

  /** The paragraph stating how many settings the protocol expects. */
  function SettingsInfo(n: nat): string
  {
    "This protocol's settings expects **" + NatToString(n) + "** " + Noun(n) + ".\n\n"
  }

  const UnknownSetting := "**Unknown Setting**\n  Please check and provide the correct setting including default value and prompt."

  /** The entry for one setting: its prompt and what it replaces when it has a
      prompt and a default, otherwise the unknown-setting notice. */
  function SettingEntry(key: string, value: JSON): (r: Result<string>)
    ensures value.Obj? ==> r.Ok?
    ensures value.Obj? && Has(value.fields, "prompt") && Has(value.fields, "default") ==>
              r.value == PromptEntry(key, ToStr(Field(value.fields, "prompt")), ToStr(Field(value.fields, "default")))
    ensures value.Obj? && !(Has(value.fields, "prompt") && Has(value.fields, "default")) ==> r.value == UnknownSetting
  {
    var hasPrompt :- Json.Contains("prompt", value);
    if !hasPrompt then Ok(UnknownSetting)
    else
      var hasDefault :- Json.Contains("default", value);
      if !hasDefault then Ok(UnknownSetting)
      else
        var prompt :- Subscript(value, "prompt");
        var default :- Subscript(value, "default");
        Ok(PromptEntry(key, ToStr(prompt), ToStr(default)))
  }

  /** The entry of a setting with a prompt: the prompt in bold, then the key it
      replaces and its default. */
  function PromptEntry(key: string, prompt: string, default: string): string
  {
    "**" + prompt + "**\n  Replaces ``" + key + "`` (default: " + default + ")"
  }

  /** The settings part of the page: the paragraph, one entry per setting and
      the serialised settings. */
  datatype Settings = Settings(info: string, entries: seq<string>, code: string)

  /** The entries of the settings in order: one per setting, failing when
      any setting's entry does. */
  function Entries(fields: Dict): (r: Result<seq<string>>)
    ensures r.Ok? <==> forall k :: 0 <= k < |fields| ==> SettingEntry(fields[k].0, fields[k].1).Ok?
    ensures r.Ok? ==> |r.value| == |fields|
    ensures r.Ok? ==> forall k :: 0 <= k < |fields| ==> r.value[k] == SettingEntry(fields[k].0, fields[k].1).value
  {
    if |fields| == 0 then Ok([])
    else
      var n := |fields| - 1;
      assert forall k :: 0 <= k < n ==> fields[..n][k] == fields[k];
      var init :- Entries(fields[..n]);
      var entry :- SettingEntry(fields[n].0, fields[n].1);
      var all := init + [entry];
      assert forall k :: 0 <= k < n ==> all[k] == init[k];
      Ok(all)
  }

  /** The settings part as written: the serialised settings are only assigned
      inside the loop, so a protocol with no settings stops the page with
      `UnboundLocalError`. `code` stands for the indented `json.dumps`. */
  function SettingsAsWritten(settings: JSON, code: string): (r: Result<Settings>)
    ensures !settings.Obj? ==> r.Err?
    ensures settings.Obj? && |settings.fields| == 0 ==> r == Err(UnboundLocalError("formatted_settings_code"))
    ensures settings.Obj? && |settings.fields| > 0 ==> r == SettingsSpec(settings, code)
  {
    var n :- Len(settings);
    if !settings.Obj? then Err(AttributeError)
    else
      var entries :- Entries(settings.fields);
      if |settings.fields| == 0 then Err(UnboundLocalError("formatted_settings_code"))
      else Ok(Settings(SettingsInfo(n), entries, code))
  }

  /** The settings part, with the serialised settings assigned once after the
      loop. */
  function SettingsSpec(settings: JSON, code: string): Result<Settings>
  {
    var n :- Len(settings);
    if !settings.Obj? then Err(AttributeError)
    else
      var entries :- Entries(settings.fields);
      Ok(Settings(SettingsInfo(n), entries, code))
  }

  /** The loop over the settings. */
  method SettingsSection(settings: JSON, code: string) returns (r: Result<Settings>)
    ensures r == SettingsSpec(settings, code)
  {
    var n :- Len(settings);
    if !settings.Obj? {
      return Err(AttributeError);
    }
    var fields := settings.fields;
    var entries: seq<string> := [];
    var i := 0;
    while i < |fields|
      invariant 0 <= i <= |fields|
      invariant Entries(fields[..i]) == Ok(entries)
    {
      assert fields[..i + 1][..i] == fields[..i];
      var entry := SettingEntry(fields[i].0, fields[i].1);
      if entry.Err? {
        EntriesFail(fields, i);
        return Err(entry.error);
      }
      entries := entries + [entry.value];
      i := i + 1;
    }
    assert fields[..i] == fields;
    return Ok(Settings(SettingsInfo(n), entries, code));
  }

  lemma {:induction false} EntriesFail(fields: Dict, i: nat)
    requires i < |fields| && Entries(fields[..i]).Ok? && SettingEntry(fields[i].0, fields[i].1).Err?
    ensures SettingsSpec(Obj(fields), "").Err? && SettingsSpec(Obj(fields), "").error == SettingEntry(fields[i].0, fields[i].1).error
    ensures forall code :: SettingsSpec(Obj(fields), code) == Err(SettingEntry(fields[i].0, fields[i].1).error)
  {
    EntriesFailFrom(fields, i, |fields|);
    assert fields[..|fields|] == fields;
  }

  lemma {:induction false} EntriesFailFrom(fields: Dict, i: nat, m: nat)
    requires i < m <= |fields| && Entries(fields[..i]).Ok? && SettingEntry(fields[i].0, fields[i].1).Err?
    ensures Entries(fields[..m]) == Err(SettingEntry(fields[i].0, fields[i].1).error)
    decreases m
  {
    assert fields[..i + 1][..i] == fields[..i];
    if m > i + 1 {
      EntriesFailFrom(fields, i, m - 1);
      assert fields[..m][..m - 1] == fields[..m - 1];
    }
  }

  /** One entry per setting, in order, each in the prompt form exactly when the
      setting is a dict with both a prompt and a default. */
  lemma {:induction false} EntriesOfDicts(fields: Dict)
    requires forall k :: 0 <= k < |fields| ==> fields[k].1.Obj?
    ensures Entries(fields).Ok?
    ensures |Entries(fields).value| == |fields|
    ensures forall k :: 0 <= k < |fields| ==> Entries(fields).value[k] == SettingEntry(fields[k].0, fields[k].1).value
    decreases |fields|
  {
    if |fields| > 0 {
      EntriesOfDicts(fields[..|fields| - 1]);
    }
  }

  /** Settings given as dicts give the paragraph for their count and one entry
      per setting, in order, each in the prompt form exactly when the setting
      has both a prompt and a default. */
  lemma {:induction false} SettingsOfDicts(settings: Dict, code: string)
    requires forall k :: 0 <= k < |settings| ==> settings[k].1.Obj?
    ensures SettingsSpec(Obj(settings), code).Ok?
    ensures var r := SettingsSpec(Obj(settings), code).value;
            && r.info == SettingsInfo(|settings|)
            && r.code == code
            && |r.entries| == |settings|
            && forall k :: 0 <= k < |settings| ==> r.entries[k] == SettingEntry(settings[k].0, settings[k].1).value
  {
    EntriesOfDicts(settings);
  }

  /** As written, a protocol that declares an empty settings dict stops the
      page; the serialised settings are kept when assigned after the loop. */
  lemma {:induction false} EmptySettingsRaise(code: string)
    ensures SettingsAsWritten(Obj([]), code) == Err(UnboundLocalError("formatted_settings_code"))
    ensures SettingsSpec(Obj([]), code) == Ok(Settings(SettingsInfo(0), [], code))
  {
  }

  /** With at least one setting the two agree. */
  lemma {:induction false} SettingsAgree(settings: JSON, code: string)
    requires settings.Obj? && |settings.fields| > 0
    ensures SettingsAsWritten(settings, code) == SettingsSpec(settings, code)
  {
  }

  // ---------------------------------------------------------------------------
  // Example table

  /** `a` sorts no later than `b` under `key=str.lower`. */
  predicate LowerLeq(a: string, b: string)
  {
    !Ids.StrLess(Lower(b), Lower(a))
  }

  predicate SortedByLower(s: seq<string>)
  {
    forall i, j :: 0 <= i < j < |s| ==> LowerLeq(s[i], s[j])
  }

  /** Inserts `k` after every key that sorts no later than it. */
  function InsertByLower(k: string, s: seq<string>): (r: seq<string>)
    requires SortedByLower(s)
    ensures SortedByLower(r)
    ensures multiset(r) == multiset(s) + multiset{k}
  {
    if |s| == 0 then [k]
    else if Ids.StrLess(Lower(k), Lower(s[0])) then
      BelowFirst(k, s);
      [k] + s
    else
      var rest := InsertByLower(k, s[1..]);
      FirstBelowRest(s, k, rest);
      assert s == [s[0]] + s[1..];
      [s[0]] + rest
  }

  /** A key that sorts before the first of a sorted list sorts before all of it. */
  lemma {:induction false} BelowFirst(k: string, s: seq<string>)
    requires SortedByLower(s) && |s| > 0 && Ids.StrLess(Lower(k), Lower(s[0]))
    ensures forall j :: 0 <= j < |s| ==> LowerLeq(k, s[j])
  {
    forall j | 0 <= j < |s| ensures LowerLeq(k, s[j]) {
      if Ids.StrLess(Lower(s[j]), Lower(k)) {
        Ids.StrLessTransitive(Lower(s[j]), Lower(k), Lower(s[0]));
        if j == 0 {
          Ids.StrLessIrreflexive(Lower(s[0]));
        }
      }
    }
  }

  /** The first of a sorted list sorts no later than the rest with `k` added. */
  lemma {:induction false} FirstBelowRest(s: seq<string>, k: string, rest: seq<string>)
    requires SortedByLower(s) && |s| > 0 && LowerLeq(s[0], k)
    requires multiset(rest) == multiset(s[1..]) + multiset{k}
    ensures forall j :: 0 <= j < |rest| ==> LowerLeq(s[0], rest[j])
  {
    forall j | 0 <= j < |rest| ensures LowerLeq(s[0], rest[j]) {
      var y := rest[j];
      assert y in multiset(rest);
      if y != k {
        assert y in multiset(s[1..]);
        var i :| 0 <= i < |s[1..]| && s[1..][i] == y;
        assert LowerLeq(s[0], s[i + 1]);
      }
    }
  }

  /** `sorted(keys, key=str.lower)`: ordered by lower-case text, keys equal up
      to case keeping their order. */
  function SortByLower(keys: seq<string>): (r: seq<string>)
    ensures SortedByLower(r)
    ensures multiset(r) == multiset(keys)
  {
    if |keys| == 0 then []
    else
      assert keys == keys[..|keys| - 1] + [keys[|keys| - 1]];
      InsertByLower(keys[|keys| - 1], SortByLower(keys[..|keys| - 1]))
  }

  /** A cell of the example table: `N/A` for `None`, else the value. */
  datatype Cell = NotAvailable | Value(v: JSON)

  /** The table rows and the names of the traces drawn as graphs. */
  datatype Table = Table(rows: seq<(string, Cell)>, graphs: seq<string>)

  /** Keys whose list values are tabulated rather than plotted. */
  predicate Tabulated(key: string)
  {
    key == "protocol" || key == "settings" || key == "order"
  }

  /** Reading the first element of this value raises `IndexError`. */
  predicate Stops(key: string, value: JSON)
  {
    value.Arr? && value.items == [] && !Tabulated(key)
  }

  /** How one analysed value enters the page; `None` when reading its first
      element raises `IndexError`, which ends the table where it stands. */
  function Place(key: string, value: JSON): Option<Table>
  {
    match value
    case Null => Some(Table([(key, NotAvailable)], []))
    case Arr(items) =>
      if Tabulated(key) then Some(Table([(key, Value(value))], []))
      else if |items| == 0 then None
      else if items[0].Int? || items[0].Bool? then Some(Table([], [key]))
      else Some(Table([(key, Value(value))], []))
    case _ => Some(Table([(key, Value(value))], []))
  }

  /** The table for `keys` in order, each looked up in `data`; the loop stops
      at the first key whose value makes it raise. */
  function TableOf(keys: seq<string>, data: Dict, acc: Table): Table
  {
    if |keys| == 0 then acc
    else
      match Place(keys[0], Field(data, keys[0]))
      case None => acc
      case Some(t) => TableOf(keys[1..], data, Table(acc.rows + t.rows, acc.graphs + t.graphs))
  }

  /** The example table of the analysed data, keys sorted case-insensitively. */
  function ExampleTable(data: Dict): Table
  {
    TableOf(SortByLower(Keys(data)), data, Table([], []))
  }

  /** The loop over the sorted keys. */
  method BuildTable(data: Dict) returns (table: Table)
    ensures table == ExampleTable(data)
  {
    var keys := SortByLower(Keys(data));
    var rows: seq<(string, Cell)> := [];
    var graphs: seq<string> := [];
    var i := 0;
    while i < |keys|
      invariant 0 <= i <= |keys|
      invariant TableOf(keys, data, Table([], [])) == TableOf(keys[i..], data, Table(rows, graphs))
    {
      var key := keys[i];
      var value := Field(data, key);
      assert keys[i..][0] == key && keys[i..][1..] == keys[i + 1..];
      if value.Null? {
        assert Place(key, value) == Some(Table([(key, NotAvailable)], []));
        rows := rows + [(key, NotAvailable)];
        assert graphs + [] == graphs;
      } else if !value.Arr? {
        assert Place(key, value) == Some(Table([(key, Value(value))], []));
        rows := rows + [(key, Value(value))];
        assert graphs + [] == graphs;
      } else if !Tabulated(key) && |value.items| == 0 {
        return Table(rows, graphs);
      } else if !Tabulated(key) && (value.items[0].Int? || value.items[0].Bool?) {
        graphs := graphs + [key];
        assert rows + [] == rows;
      } else {
        rows := rows + [(key, Value(value))];
        assert graphs + [] == graphs;
      }
      i := i + 1;
    }
    return Table(rows, graphs);
  }

  /** A row of the table: a key of the data with its value, `N/A` exactly for
      `None`. */
  predicate RowOk(data: Dict, row: (string, Cell))
  {
    && Has(data, row.0)
    && (row.1 == NotAvailable <==> Field(data, row.0).Null?)
    && (row.1.Value? ==> row.1.v == Field(data, row.0))
  }

  /** A graph: a key, other than the tabulated ones, whose value is a list
      starting with a number. */
  predicate GraphOk(data: Dict, key: string)
  {
    var v := Field(data, key);
    Has(data, key) && !Tabulated(key) && v.Arr? && |v.items| > 0 && (v.items[0].Int? || v.items[0].Bool?)
  }

  /** Every row and every graph of the table is one of the data's keys, placed
      by its value; the table only grows. */
  lemma {:induction false} TableRows(keys: seq<string>, data: Dict, acc: Table)
    requires forall r :: r in acc.rows ==> RowOk(data, r)
    requires forall g :: g in acc.graphs ==> GraphOk(data, g)
    requires forall k :: 0 <= k < |keys| ==> Has(data, keys[k])
    ensures var t := TableOf(keys, data, acc);
            && (forall r :: r in t.rows ==> RowOk(data, r))
            && (forall g :: g in t.graphs ==> GraphOk(data, g))
            && acc.rows <= t.rows && acc.graphs <= t.graphs
    decreases |keys|
  {
    if |keys| > 0 {
      match Place(keys[0], Field(data, keys[0]))
      case None =>
      case Some(t) =>
        TableRows(keys[1..], data, Table(acc.rows + t.rows, acc.graphs + t.graphs));
    }
  }

  /** When no untabulated key holds an empty list, every key of the data is
      placed: as a row or as a graph. */
  lemma {:induction false} TableComplete(keys: seq<string>, data: Dict, acc: Table)
    requires forall k :: 0 <= k < |keys| ==> !Stops(keys[k], Field(data, keys[k]))
    ensures var t := TableOf(keys, data, acc);
            |t.rows| + |t.graphs| == |acc.rows| + |acc.graphs| + |keys|
    decreases |keys|
  {
    if |keys| > 0 {
      var t := Place(keys[0], Field(data, keys[0]));
      assert t.Some?;
      TableComplete(keys[1..], data, Table(acc.rows + t.value.rows, acc.graphs + t.value.graphs));
    }
  }

  /** The sorted keys are the data's keys, case-insensitively ordered. */
  lemma {:induction false} SortedKeys(data: Dict)
    ensures SortedByLower(SortByLower(Keys(data)))
    ensures forall k :: 0 <= k < |SortByLower(Keys(data))| ==> Has(data, SortByLower(Keys(data))[k])
  {
    var keys := SortByLower(Keys(data));
    forall k | 0 <= k < |keys| ensures Has(data, keys[k]) {
      assert keys[k] in multiset(Keys(data));
      var j :| 0 <= j < |Keys(data)| && Keys(data)[j] == keys[k];
      assert data[j].0 == keys[k];
    }
  }

  /** Every row of the example table is a key of the data with its value, `N/A`
      for `None`, and every graph a list of numbers; when no list is empty,
      every key appears once as a row or as a graph. */
  lemma {:induction false} ExampleTableRows(data: Dict)
    ensures var t := ExampleTable(data);
            && (forall r :: r in t.rows ==> RowOk(data, r))
            && (forall g :: g in t.graphs ==> GraphOk(data, g))
    ensures (forall j :: 0 <= j < |data| ==> !Stops(data[j].0, Field(data, data[j].0))) ==>
              |ExampleTable(data).rows| + |ExampleTable(data).graphs| == |data|
  {
    SortedKeys(data);
    var keys := SortByLower(Keys(data));
    TableRows(keys, data, Table([], []));
    if forall j :: 0 <= j < |data| ==> !Stops(data[j].0, Field(data, data[j].0)) {
      forall k | 0 <= k < |keys| ensures !Stops(keys[k], Field(data, keys[k])) {
        assert keys[k] in multiset(Keys(data));
        var j :| 0 <= j < |Keys(data)| && Keys(data)[j] == keys[k];
        assert data[j].0 == keys[k];
      }
      TableComplete(keys, data, Table([], []));
    }
  }
}
