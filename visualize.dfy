/** The step-summary part of the protocol visualiser: the lookup tables, the start
    trigger, the title, the detector / LED / sensor summaries, pre-illumination,
    the do-once note, the variable-reference resolver and the text of a step node. */
module Visualize {
  import opened Runtime
  import opened Text
  import opened Json
  import Ids

  /** Detector id -> name. */
  const DetectorNames: map<string, string> := map[
    "1" := "700nm - 1150nm",
    "3" := "400nm - 700nm (BG18)"
  ]

  /** LED id -> name. */
  const LedNames: map<string, string> := map[
    "1" := "530nm (Main)",
    "2" := "655nm (Main)",
    "3" := "590nm (Main)",
    "4" := "448nm (Main)",
    "5" := "950nm (Main)",
    "6" := "950nm (Clamp)",
    "7" := "655nm (Clamp)",
    "8" := "850nm (Clamp)",
    "9" := "730nm (Clamp)",
    "10" := "820nm (Clamp)"
  ]

  /** Sensor key pattern (alternatives separated by `|`) -> name, in table order. */
  const SensorNames: seq<(string, string)> := [
    ("temperature_humidity_pressure|temperature_humidity_pressure2|thp|thp2", "Ambient Temperature, Humidity, Pressure"),
    ("contactless_temp", "Contactless Temperature"),
    ("compass_and_angle", "Accelerometer & Magnetometer"),
    ("thickness|thickness_raw", "Hall Effect Sensor"),
    ("light_intensity|previous_light_intensity", "PAR light sensor")
  ]

  /** `gettext.ngettext(singular, plural, n)` without a translation catalogue. */
  function NGetText(singular: string, plural: string, n: int): string
  {
    if n == 1 then singular else plural
  }

  /** `LEDS[str(v)]`. */
  function LedName(v: JSON): (r: Result<string>)
    ensures r.Ok? <==> ToStr(v) in LedNames
    ensures r.Ok? ==> r.value == LedNames[ToStr(v)]
    ensures r.Err? ==> r.error == KeyError(ToStr(v))
  {
    var key := ToStr(v);
    if key in LedNames then Ok(LedNames[key]) else Err(KeyError(key))
  }

  // ---------------------------------------------------------------------------
  // Start trigger

  const Opened := "**Waits until**: Clamp opened"
  const Closed := "**Waits until**: Clamp closed"
  const OpenedAndClosed := "**Waits until**: Clamp opened and closed"

  /** A plain trigger fires when its field equals 1. */
  predicate PlainFires(step: Dict, key: string)
  {
    Has(step, key) && EqualsInt(Field(step, key), 1)
  }

  /** One `par_led_*` check: on presence the text names the LED, looked up in
      the LED table. */
  function ParLedCheck(step: Dict, key: string, text: string, out: Option<string>): Result<Option<string>>
  {
    if Has(step, key) then
      var name :- LedName(Field(step, key));
      Ok(Some(text + "\n" + name))
    else Ok(out)
  }

  /** The four clamp checks: a later matching field overrides an earlier one. */
  function ClampStart(step: Dict): Option<string>
  {
    var out1 := if PlainFires(step, "start_on_open") then Some(Opened) else None;
    var out2 := if PlainFires(step, "start_on_close") then Some(Closed) else out1;
    var out3 := if PlainFires(step, "open_close_start") then Some(OpenedAndClosed) else out2;
    if PlainFires(step, "start_on_open_close") then Some(OpenedAndClosed) else out3
  }

  /** The three LED checks, applied after the clamp checks to their result `out`. */
  function LedStart(step: Dict, out: Option<string>): Result<Option<string>>
  {
    var out5 :- ParLedCheck(step, "par_led_start_on_open", Opened, out);
    var out6 :- ParLedCheck(step, "par_led_start_on_close", Closed, out5);
    ParLedCheck(step, "par_led_start_on_open_close", OpenedAndClosed, out6)
  }

  /** `start(element)`: the start signal of a step, `None` when nothing triggers
      it. The checks are independent `if`s, so a later matching field overrides an
      earlier one. */
  function Start(step: Dict): (r: Result<Option<string>>)
    ensures r == Scan(step, 0, None)
  {
    ClampScan(step);
    LedScan(step, ClampStart(step));
    LedStart(step, ClampStart(step))
  }

  /** The start triggers in the order the source checks them. */
  datatype Trigger = Plain(key: string, text: string) | ParLed(key: string, text: string)

  const Triggers: seq<Trigger> := [
    Plain("start_on_open", Opened),
    Plain("start_on_close", Closed),
    Plain("open_close_start", OpenedAndClosed),
    Plain("start_on_open_close", OpenedAndClosed),
    ParLed("par_led_start_on_open", Opened),
    ParLed("par_led_start_on_close", Closed),
    ParLed("par_led_start_on_open_close", OpenedAndClosed)
  ]

  /** Trigger `t` matches the step: a plain field equal to 1, or a LED field present. */
  predicate Fires(step: Dict, t: Trigger)
  {
    match t
    case Plain(key, _) => PlainFires(step, key)
    case ParLed(key, _) => Has(step, key)
  }

  /** A present `par_led_*` field names an LED missing from the table. */
  predicate UnknownLed(step: Dict, t: Trigger)
  {
    t.ParLed? && Has(step, t.key) && ToStr(Field(step, t.key)) !in LedNames
  }

  function TriggerText(step: Dict, t: Trigger): string
  {
    match t
    case Plain(_, text) => text
    case ParLed(key, text) =>
      var k := ToStr(Field(step, key));
      if k in LedNames then text + "\n" + LedNames[k] else text
  }

  /** The trigger table applied from position `k` on to the text `out` chosen so far. */
  function Scan(step: Dict, k: nat, out: Option<string>): Result<Option<string>>
    requires k <= |Triggers|
    decreases |Triggers| - k
  {
    if k == |Triggers| then Ok(out)
    else
      match Triggers[k]
      case Plain(key, text) => Scan(step, k + 1, if PlainFires(step, key) then Some(text) else out)
      case ParLed(key, text) =>
        if Has(step, key) then
          var name :- LedName(Field(step, key));
          Scan(step, k + 1, Some(text + "\n" + name))
        else Scan(step, k + 1, out)
  }

  lemma {:induction false} ClampScan(step: Dict)
    ensures Scan(step, 0, None) == Scan(step, 4, ClampStart(step))
  {
    var out1 := if PlainFires(step, "start_on_open") then Some(Opened) else None;
    var out2 := if PlainFires(step, "start_on_close") then Some(Closed) else out1;
    var out3 := if PlainFires(step, "open_close_start") then Some(OpenedAndClosed) else out2;
    ScanPlain(step, 0, None);
    ScanPlain(step, 1, out1);
    ScanPlain(step, 2, out2);
    ScanPlain(step, 3, out3);
  }

  lemma {:induction false} LedScan(step: Dict, out4: Option<string>)
    ensures Scan(step, 4, out4) == LedStart(step, out4)
  {
    ScanParLed(step, 4, out4);
    match ParLedCheck(step, "par_led_start_on_open", Opened, out4)
    case Err(e) =>
    case Ok(out5) =>
      ScanParLed(step, 5, out5);
      match ParLedCheck(step, "par_led_start_on_close", Closed, out5)
      case Err(e) =>
      case Ok(out6) =>
        ScanParLed(step, 6, out6);
  }

  lemma {:induction false} ScanPlain(step: Dict, k: nat, out: Option<string>)
    requires k < |Triggers| && Triggers[k].Plain?
    ensures Scan(step, k, out) == Scan(step, k + 1, if PlainFires(step, Triggers[k].key) then Some(Triggers[k].text) else out)
  {
  }

  lemma {:induction false} ScanParLed(step: Dict, k: nat, out: Option<string>)
    requires k < |Triggers| && Triggers[k].ParLed?
    ensures Scan(step, k, out) ==
            match ParLedCheck(step, Triggers[k].key, Triggers[k].text, out)
            case Ok(next) => Scan(step, k + 1, next)
            case Err(e) => Err(e)
  {
  }

  /** No unknown LED from position `k` on. */
  predicate LedsKnownFrom(step: Dict, k: nat)
  {
    forall j :: k <= j < |Triggers| ==> !UnknownLed(step, Triggers[j])
  }

  /** No trigger fires from position `k` on. */
  predicate SilentFrom(step: Dict, k: nat)
  {
    forall j :: k <= j < |Triggers| ==> !Fires(step, Triggers[j])
  }

  lemma {:induction false} ScanSilent(step: Dict, k: nat, out: Option<string>)
    requires k <= |Triggers| && LedsKnownFrom(step, k) && SilentFrom(step, k)
    ensures Scan(step, k, out) == Ok(out)
    decreases |Triggers| - k
  {
    if k < |Triggers| {
      ScanSilent(step, k + 1, out);
    }
  }

  lemma {:induction false} ScanLast(step: Dict, k: nat, out: Option<string>, last: nat)
    requires k <= last < |Triggers| && LedsKnownFrom(step, k)
    requires Fires(step, Triggers[last]) && SilentFrom(step, last + 1)
    ensures Scan(step, k, out) == Ok(Some(TriggerText(step, Triggers[last])))
    decreases |Triggers| - k
  {
    var t := Triggers[k];
    var next :=
      match t
      case Plain(key, text) => if PlainFires(step, key) then Some(text) else out
      case ParLed(key, text) => if Has(step, key) then Some(TriggerText(step, t)) else out;
    assert Scan(step, k, out) == Scan(step, k + 1, next);
    if k == last {
      ScanSilent(step, k + 1, next);
    } else {
      ScanLast(step, k + 1, next, last);
    }
  }

  lemma {:induction false} ScanUnknown(step: Dict, k: nat, out: Option<string>, first: nat)
    requires k <= first < |Triggers| && UnknownLed(step, Triggers[first])
    requires forall i :: k <= i < first ==> !UnknownLed(step, Triggers[i])
    ensures Scan(step, k, out) == Err(KeyError(ToStr(Field(step, Triggers[first].key))))
    decreases |Triggers| - k
  {
    if k < first {
      var t := Triggers[k];
      var next :=
        match t
        case Plain(key, text) => if PlainFires(step, key) then Some(text) else out
        case ParLed(key, text) => if Has(step, key) then Some(TriggerText(step, t)) else out;
      assert Scan(step, k, out) == Scan(step, k + 1, next);
      ScanUnknown(step, k + 1, next, first);
    }
  }

  /** The start text is the text of the LAST trigger that fires; there is none
      exactly when no trigger fires; and the first `par_led_*` field naming an
      unknown LED raises `KeyError` with that id. */
  lemma {:induction false} StartIsLastFiringTrigger(step: Dict)
    ensures LedsKnownFrom(step, 0) ==> (Start(step) == Ok(None) <==> SilentFrom(step, 0))
    ensures LedsKnownFrom(step, 0) ==>
              forall k :: 0 <= k < |Triggers| && Fires(step, Triggers[k]) && SilentFrom(step, k + 1) ==>
                Start(step) == Ok(Some(TriggerText(step, Triggers[k])))
    ensures forall k :: (0 <= k < |Triggers| && UnknownLed(step, Triggers[k]) &&
              (forall j :: 0 <= j < k ==> !UnknownLed(step, Triggers[j]))) ==>
              Start(step) == Err(KeyError(ToStr(Field(step, Triggers[k].key))))
  {
    forall k | 0 <= k < |Triggers| && UnknownLed(step, Triggers[k]) && (forall j :: 0 <= j < k ==> !UnknownLed(step, Triggers[j]))
      ensures Start(step) == Err(KeyError(ToStr(Field(step, Triggers[k].key))))
    {
      ScanUnknown(step, 0, None, k);
    }
    if LedsKnownFrom(step, 0) {
      if SilentFrom(step, 0) {
        ScanSilent(step, 0, None);
      } else {
        var last := LastFiring(step, |Triggers|);
        ScanLast(step, 0, None, last);
      }
      forall k | 0 <= k < |Triggers| && Fires(step, Triggers[k]) && SilentFrom(step, k + 1)
        ensures Start(step) == Ok(Some(TriggerText(step, Triggers[k])))
      {
        ScanLast(step, 0, None, k);
      }
    }
  }

  /** The position of the last trigger before `n` that fires. */
  lemma {:induction false} LastFiring(step: Dict, n: nat) returns (last: nat)
    requires n <= |Triggers| && !SilentFrom(step, 0) && SilentFrom(step, n)
    ensures last < |Triggers| && Fires(step, Triggers[last]) && SilentFrom(step, last + 1)
    decreases n
  {
    if n > 0 && Fires(step, Triggers[n - 1]) {
      last := n - 1;
    } else {
      assert n > 0;
      last := LastFiring(step, n - 1);
    }
  }

  // ---------------------------------------------------------------------------
  // Title

  /** `label(element, idx)`: the explicit label, else "Protocol #<idx+1>" for a
      non-negative index, else "Protocol". */
  function Label(step: Dict, idx: int): (r: JSON)
    ensures Has(step, "label") ==> r == Field(step, "label")
    ensures !Has(step, "label") && idx >= 0 ==> r == Str("Protocol #" + IntToString(idx + 1))
    ensures !Has(step, "label") && idx < 0 ==> r == Str("Protocol")
  {
    var out := if Has(step, "label") then Field(step, "label") else Str("Protocol");
    if idx > -1 && !Has(step, "label") then Str("Protocol #" + IntToString(idx + 1)) else out
  }

  // ---------------------------------------------------------------------------
  // Detector, LED and sensor summaries

  /** A step whose id fields have the shape numpy handles: each present id field
      is an id list, and the environmental ids are strings. */
  predicate WellFormedStep(step: Dict)
  {
    && (Has(step, "detectors") ==> Ids.IdField(Field(step, "detectors")))
    && (Has(step, "pulsed_lights") ==> Ids.IdField(Field(step, "pulsed_lights")))
    && (Has(step, "nonpulsed_lights") ==> Ids.IdField(Field(step, "nonpulsed_lights")))
    && (Has(step, "environmental") ==> SensorField(Field(step, "environmental")))
  }

  predicate SensorField(v: JSON)
  {
    Ids.IdField(v) && forall k :: 0 <= k < |Ids.Flatten(v.items)| ==> Ids.Flatten(v.items)[k].Str?
  }

  /** The names of the ids that the table knows, in id order; unknown ids are dropped. */
  function KnownNames(ids: seq<JSON>, table: map<string, string>): (r: seq<string>)
    ensures |r| <= |ids|
    ensures forall n :: n in r <==> exists x :: x in ids && ToStr(x) in table && table[ToStr(x)] == n
  {
    if |ids| == 0 then []
    else
      var rest := KnownNames(ids[1..], table);
      assert forall n :: n in rest <==> exists x :: x in ids[1..] && ToStr(x) in table && table[ToStr(x)] == n;
      if ToStr(ids[0]) in table then [table[ToStr(ids[0])]] + rest else rest
  }

  /** The names of the ids of `a + b` are those of `a` followed by those of `b`. */
  lemma {:induction false} KnownNamesAppend(a: seq<JSON>, b: seq<JSON>, table: map<string, string>)
    ensures KnownNames(a + b, table) == KnownNames(a, table) + KnownNames(b, table)
  {
    if |a| == 0 {
      assert a + b == b;
    } else {
      assert (a + b)[0] == a[0] && (a + b)[1..] == a[1..] + b;
      KnownNamesAppend(a[1..], b, table);
    }
  }

  /** The names follow the ids: the name of an earlier known id comes before
      the name of a later one. */
  lemma {:induction false} KnownNamesOrder(ids: seq<JSON>, i: nat, j: nat, table: map<string, string>)
    requires i < j < |ids| && ToStr(ids[i]) in table && ToStr(ids[j]) in table
    ensures exists p, q :: 0 <= p < q < |KnownNames(ids, table)| &&
              KnownNames(ids, table)[p] == table[ToStr(ids[i])] && KnownNames(ids, table)[q] == table[ToStr(ids[j])]
  {
    var front, middle, back := ids[..i], ids[i..j], ids[j..];
    assert ids == front + middle + back;
    KnownNamesAppend(front + middle, back, table);
    KnownNamesAppend(front, middle, table);
    var m := KnownNames(middle, table);
    assert middle == [ids[i]] + middle[1..];
    assert back == [ids[j]] + back[1..];
    assert m[0] == table[ToStr(ids[i])];
    var p := |KnownNames(front, table)|;
    var q := p + |m|;
    assert KnownNames(ids, table) == KnownNames(front, table) + m + KnownNames(back, table);
    assert KnownNames(ids, table)[p] == m[0];
    assert KnownNames(ids, table)[q] == KnownNames(back, table)[0];
  }

  /** One bullet line per name. */
  function Bullets(names: seq<string>): (r: seq<string>)
    ensures |r| == |names| && forall k :: 0 <= k < |names| ==> r[k] == "• " + names[k]
  {
    seq(|names|, k requires 0 <= k < |names| => "• " + names[k])
  }

  /** The summary text: a single id is written inline, any other count as a
      leading newline followed by one bullet line per name. */
  function SummaryText(names: seq<string>, count: nat): string
  {
    if count == 1 then Join(names, "\n") else "\n" + Join(Bullets(names), "\n")
  }

  /** With a single id there is at most one name, written as it is (nothing for
      an unknown id). */
  lemma {:induction false} SummaryInline(names: seq<string>)
    requires |names| <= 1
    ensures SummaryText(names, 1) == if names == [] then "" else names[0]
  {
  }

  /** With any other count the text is a newline alone when no name is known;
      otherwise its lines are an empty first line and then `• name` for each
      name, in order. */
  lemma {:induction false} SummaryBullets(names: seq<string>, count: nat)
    requires count != 1
    requires forall k :: 0 <= k < |names| ==> '\n' !in names[k]
    ensures names == [] ==> SummaryText(names, count) == "\n"
    ensures names != [] ==> Split(SummaryText(names, count), '\n') == [""] + Bullets(names)
  {
    if names != [] {
      var lines := Bullets(names);
      forall k | 0 <= k < |lines| ensures '\n' !in lines[k] {
        assert lines[k] == "• " + names[k];
      }
      SplitJoin(lines, '\n');
      SplitPrefix("", Join(lines, "\n"), '\n');
      assert "" + ['\n'] + Join(lines, "\n") == SummaryText(names, count);
    }
  }

  const NoArrays := "need at least one array to concatenate"

  /** `detectors(element)` and `leds(element, lights)`: `None` when the field is
      absent, numpy's `ValueError` when it is an empty list, and otherwise the
      number of distinct raw ids and the text naming the known ones in ascending
      id order. */
  function TableSummary(step: Dict, key: string, table: map<string, string>): (r: Result<Option<(string, nat)>>)
    requires Has(step, key) ==> Ids.IdField(Field(step, key))
    ensures !Has(step, key) ==> r == Ok(None)
    ensures Has(step, key) && |Field(step, key).items| == 0 ==> r == Err(ValueError(NoArrays))
    ensures Has(step, key) && |Field(step, key).items| > 0 ==> r.Ok? && r.value.Some?
    ensures r.Ok? && r.value.Some? ==> r.value.value.1 == |set x | x in Ids.Flatten(Field(step, key).items)|
    ensures Has(step, key) && r.Ok? && r.value.Some? ==>
              r.value.value.0 == SummaryText(KnownNames(Ids.FieldIds(Field(step, key)), table), r.value.value.1)
  {
    if !Has(step, key) then Ok(None)
    else
      var v := Field(step, key);
      if |v.items| == 0 then Err(ValueError(NoArrays))
      else
        var ids := Ids.FieldIds(v);
        Ok(Some((SummaryText(KnownNames(ids, table), |ids|), |ids|)))
  }

  /** For a table of one-line names (the detector and LED tables are): a single
      distinct id gives its name inline, or nothing when it is unknown; several
      give an empty first line and one `• name` line per known id, in ascending
      id order; none known gives a newline alone. */
  lemma {:induction false} TableSummaryLines(step: Dict, key: string, table: map<string, string>)
    requires Has(step, key) && Ids.IdField(Field(step, key)) && |Field(step, key).items| > 0
    requires forall n :: n in table.Values ==> '\n' !in n
    ensures var text := TableSummary(step, key, table).value.value.0;
            var count := TableSummary(step, key, table).value.value.1;
            var names := KnownNames(Ids.FieldIds(Field(step, key)), table);
            && (count == 1 ==> text == if names == [] then "" else names[0])
            && (count != 1 && names == [] ==> text == "\n")
            && (count != 1 && names != [] ==> Split(text, '\n') == [""] + Bullets(names))
  {
    var ids := Ids.FieldIds(Field(step, key));
    var names := KnownNames(ids, table);
    var count := TableSummary(step, key, table).value.value.1;
    assert count == |ids|;
    if count == 1 {
      SummaryInline(names);
    } else {
      forall k | 0 <= k < |names| ensures '\n' !in names[k] {
        assert names[k] in names;
        var x :| x in ids && ToStr(x) in table && table[ToStr(x)] == names[k];
        assert names[k] in table.Values;
      }
      SummaryBullets(names, count);
    }
  }

  /** The detector and LED names are one line each. */
  lemma {:induction false} TableNamesOneLine()
    ensures forall n :: n in DetectorNames.Values ==> '\n' !in n
    ensures forall n :: n in LedNames.Values ==> '\n' !in n
  {
  }

  /** `matchSensor`: the first sensor, in table order, whose key pattern contains
      the id as a substring; the id itself when none does. */
  function MatchSensor(id: string): (r: string)
    ensures (forall k :: 0 <= k < |SensorNames| ==> !Text.Contains(SensorNames[k].0, id)) ==> r == id
    ensures forall k :: (0 <= k < |SensorNames| && Text.Contains(SensorNames[k].0, id) &&
              (forall j :: 0 <= j < k ==> !Text.Contains(SensorNames[j].0, id))) ==> r == SensorNames[k].1
  {
    MatchSensorFrom(id, 0)
  }

  function MatchSensorFrom(id: string, from: nat): (r: string)
    requires from <= |SensorNames|
    ensures (forall k :: from <= k < |SensorNames| ==> !Text.Contains(SensorNames[k].0, id)) ==> r == id
    ensures forall k :: (from <= k < |SensorNames| && Text.Contains(SensorNames[k].0, id) &&
              (forall j :: from <= j < k ==> !Text.Contains(SensorNames[j].0, id))) ==> r == SensorNames[k].1
    decreases |SensorNames| - from
  {
    if from == |SensorNames| then id
    else if Text.Contains(SensorNames[from].0, id) then SensorNames[from].1
    else MatchSensorFrom(id, from + 1)
  }

  /** The distinct sensor names of the keys `ids`, in ascending order. */
  function SensorNamesOf(ids: seq<JSON>): (r: seq<string>)
    ensures forall i, j :: 0 <= i < j < |r| ==> Ids.StrLess(r[i], r[j])
    ensures forall i, j :: 0 <= i < j < |r| ==> r[i] != r[j]
    ensures forall n :: n in r <==> exists k :: 0 <= k < |ids| && MatchSensor(ToStr(ids[k])) == n
  {
    var names := seq(|ids|, k requires 0 <= k < |ids| => Str(MatchSensor(ToStr(ids[k]))));
    var unique := Ids.Unique(names);
    StrsOnly(names, unique);
    var r := seq(|unique|, k requires 0 <= k < |unique| => ToStr(unique[k]));
    SortedTexts(unique, r);
    SensorMembers(ids, names, unique, r);
    r
  }

  lemma {:induction false} StrsOnly(names: seq<JSON>, unique: seq<JSON>)
    requires forall k :: 0 <= k < |names| ==> names[k].Str?
    requires forall y :: y in unique <==> y in names
    ensures forall k :: 0 <= k < |unique| ==> unique[k].Str?
  {
    forall k | 0 <= k < |unique| ensures unique[k].Str? {
      assert unique[k] in names;
    }
  }

  /** The texts of strictly ascending strings are strictly ascending. */
  lemma {:induction false} SortedTexts(unique: seq<JSON>, r: seq<string>)
    requires Ids.StrictlySorted(unique) && forall k :: 0 <= k < |unique| ==> unique[k].Str?
    requires |r| == |unique| && forall k :: 0 <= k < |r| ==> r[k] == ToStr(unique[k])
    ensures forall i, j :: 0 <= i < j < |r| ==> Ids.StrLess(r[i], r[j]) && r[i] != r[j]
  {
    forall i, j | 0 <= i < j < |r| ensures Ids.StrLess(r[i], r[j]) && r[i] != r[j] {
      assert Ids.Less(unique[i], unique[j]);
      Ids.StrLessIrreflexive(r[i]);
    }
  }

  lemma {:induction false} SensorMembers(ids: seq<JSON>, names: seq<JSON>, unique: seq<JSON>, r: seq<string>)
    requires |names| == |ids| && forall k :: 0 <= k < |ids| ==> names[k] == Str(MatchSensor(ToStr(ids[k])))
    requires forall y :: y in unique <==> y in names
    requires forall k :: 0 <= k < |unique| ==> unique[k].Str?
    requires |r| == |unique| && forall k :: 0 <= k < |r| ==> r[k] == ToStr(unique[k])
    ensures forall n :: n in r <==> exists k :: 0 <= k < |ids| && MatchSensor(ToStr(ids[k])) == n
  {
    forall n ensures n in r <==> exists k :: 0 <= k < |ids| && MatchSensor(ToStr(ids[k])) == n {
      if n in r {
        var i :| 0 <= i < |r| && r[i] == n;
        assert unique[i] in names;
        var k :| 0 <= k < |ids| && names[k] == unique[i];
      }
      if exists k :: 0 <= k < |ids| && MatchSensor(ToStr(ids[k])) == n {
        var k :| 0 <= k < |ids| && MatchSensor(ToStr(ids[k])) == n;
        assert names[k] in unique;
        var i :| 0 <= i < |unique| && unique[i] == names[k];
        assert r[i] == n;
      }
    }
  }

  /** `environment(element)`: `None` when the field is absent, numpy's
      `ValueError` when it is an empty list, and otherwise the number of distinct
      raw keys and the text naming the distinct sensors in ascending order. */
  function SensorSummary(step: Dict): (r: Result<Option<(string, nat)>>)
    requires Has(step, "environmental") ==> SensorField(Field(step, "environmental"))
    ensures !Has(step, "environmental") ==> r == Ok(None)
    ensures Has(step, "environmental") && |Field(step, "environmental").items| == 0 ==> r == Err(ValueError(NoArrays))
    ensures Has(step, "environmental") && |Field(step, "environmental").items| > 0 ==> r.Ok? && r.value.Some?
    ensures r.Ok? && r.value.Some? ==>
              r.value.value.1 == |set x | x in Ids.Flatten(Field(step, "environmental").items)|
    ensures Has(step, "environmental") && r.Ok? && r.value.Some? ==>
              r.value.value.0 == SummaryText(SensorNamesOf(Ids.FieldIds(Field(step, "environmental"))), r.value.value.1)
  {
    if !Has(step, "environmental") then Ok(None)
    else
      var v := Field(step, "environmental");
      if |v.items| == 0 then Err(ValueError(NoArrays))
      else
        var ids := Ids.FieldIds(v);
        Ok(Some((SummaryText(SensorNamesOf(ids), |ids|), |ids|)))
  }

  // ---------------------------------------------------------------------------
  // Variable references

  const BadLiteral := "invalid literal for int() with base 10"

  /** `int(text)` raising `ValueError` on a malformed literal. */
  function IntOf(text: string): (r: Result<int>)
    ensures ParseInt(text).Some? ==> r == Ok(ParseInt(text).value)
    ensures ParseInt(text).None? ==> r == Err(ValueError(BadLiteral))
  {
    match ParseInt(text)
    case Some(n) => Ok(n)
    case None => Err(ValueError(BadLiteral))
  }

  function IntsOf(parts: seq<string>): (r: Result<seq<int>>)
    ensures r.Ok? ==> |r.value| == |parts|
    ensures r.Ok? ==> forall k :: 0 <= k < |parts| ==> ParseInt(parts[k]) == Some(r.value[k])
  {
    if |parts| == 0 then Ok([])
    else
      var n :- IntOf(parts[0]);
      var rest :- IntsOf(parts[1..]);
      Ok([n] + rest)
  }

  /** `', '.join(map(str, row))`. */
  function JoinValues(row: JSON): (r: Result<JSON>)
    ensures r.Ok? ==> r.value.Str?
  {
    var items :- Iter(row);
    Ok(Str(Join(seq(|items|, k requires 0 <= k < |items| => ToStr(items[k])), ", ")))
  }

  /** The row check of `#l`, `@s` and `@p`. As written it is only
      `idx < len(v_arr)`, so a negative index reads from the end of `v_arr` or
      raises `IndexError`; corrected, it is the `in range(len(v_arr))` check of
      `@n`, and any other index keeps the token. */
  predicate RowInRange(idx: int, n: nat, asWritten: bool)
  {
    idx < n && (asWritten || 0 <= idx)
  }

  /** `#l<N>`: the length of row N when the row check passes, else the token. */
  function ResolveLength(token: JSON, digits: string, vArr: JSON, asWritten: bool): (r: Result<JSON>)
    ensures r.Ok? ==> r.value == token || r.value.Int?
  {
    var idx :- IntOf(digits);
    var n :- Len(vArr);
    if RowInRange(idx, n, asWritten) then
      var row :- Index(vArr, idx);
      var l :- Len(row);
      Ok(Int(l))
    else Ok(token)
  }

  /** `@s<N>` and `@p<N>`: row N joined with ", " when the row check passes, else the token. */
  function ResolveSeries(token: JSON, digits: string, vArr: JSON, asWritten: bool): (r: Result<JSON>)
    ensures r.Ok? ==> r.value == token || r.value.Str?
  {
    var idx :- IntOf(digits);
    var n :- Len(vArr);
    if RowInRange(idx, n, asWritten) then
      var row :- Index(vArr, idx);
      JoinValues(row)
    else Ok(token)
  }

  /** `@n<I>:<J>`: element J of row I when both are in range, else the token. */
  function ResolveScalar(token: JSON, indices: string, vArr: JSON): Result<JSON>
  {
    var idx :- IntsOf(Split(indices, ':'));
    ScalarAt(token, idx, vArr)
  }

  /** `v_arr[idx[0]][idx[1]]` when both are in range, else the token; a single
      index in range is an `IndexError`. */
  function ScalarAt(token: JSON, idx: seq<int>, vArr: JSON): Result<JSON>
    requires |idx| >= 1
  {
    var n :- Len(vArr);
    if 0 <= idx[0] < n then
      if |idx| < 2 then Err(IndexError)
      else
        var row :- Index(vArr, idx[0]);
        var m :- Len(row);
        if 0 <= idx[1] < m then Index(row, idx[1]) else Ok(token)
    else Ok(token)
  }

  /** `get_variable(variable, v_arr)`, with `v_arr` `None` written as `Null`,
      and the row check of `#l`, `@s` and `@p` corrected to reject negative
      indices (`GetVariableAsWritten` keeps the source's check). The four
      prefixes exclude one another, so the source's sequence of `if`s is this
      chain. */
  function GetVariable(variable: JSON, vArr: JSON): (r: Result<JSON>)
    ensures (r.Err? || r.value != variable) ==>
              && variable.Str? && !vArr.Null?
              && (|| StartsWith(variable.s, "#l") || StartsWith(variable.s, "@s")
                  || StartsWith(variable.s, "@p") || StartsWith(variable.s, "@n"))
    ensures r.Ok? && r.value != variable && StartsWith(variable.s, "#l") ==> r.value.Int?
    ensures r.Ok? && r.value != variable && (StartsWith(variable.s, "@s") || StartsWith(variable.s, "@p")) ==> r.value.Str?
    ensures variable.Str? && Len(vArr).Ok?
            && (StartsWith(variable.s, "#l") || StartsWith(variable.s, "@s") || StartsWith(variable.s, "@p"))
            && IntOf(variable.s[2..]).Ok? && !(0 <= IntOf(variable.s[2..]).value < Len(vArr).value) ==>
              r == Ok(variable)
  {
    if !variable.Str? || vArr.Null? then Ok(variable)
    else
      var s := variable.s;
      if StartsWith(s, "#l") then ResolveLength(variable, s[2..], vArr, false)
      else if StartsWith(s, "@s") then ResolveSeries(variable, s[2..], vArr, false)
      else if StartsWith(s, "@p") then ResolveSeries(variable, s[2..], vArr, false)
      else if StartsWith(s, "@n") then ResolveScalar(variable, s[2..], vArr)
      else Ok(variable)
  }

  /** `get_variable` as written: the `#l`, `@s` and `@p` branches check only
      `idx < len(v_arr)`. */
  function GetVariableAsWritten(variable: JSON, vArr: JSON): Result<JSON>
  {
    if !variable.Str? || vArr.Null? then Ok(variable)
    else
      var s := variable.s;
      if StartsWith(s, "#l") then ResolveLength(variable, s[2..], vArr, true)
      else if StartsWith(s, "@s") then ResolveSeries(variable, s[2..], vArr, true)
      else if StartsWith(s, "@p") then ResolveSeries(variable, s[2..], vArr, true)
      else if StartsWith(s, "@n") then ResolveScalar(variable, s[2..], vArr)
      else Ok(variable)
  }

  /** A value that is not a string, an absent variable table, or a string without
      one of the four prefixes is returned unchanged. */
  lemma {:induction false} GetVariableUnchanged(variable: JSON, vArr: JSON)
    requires || !variable.Str? || vArr.Null?
             || (!StartsWith(variable.s, "#l") && !StartsWith(variable.s, "@s")
                 && !StartsWith(variable.s, "@p") && !StartsWith(variable.s, "@n"))
    ensures GetVariable(variable, vArr) == Ok(variable)
  {
  }

  /** A token with one of the four prefixes goes to that prefix's resolver. */
  lemma {:induction false} Dispatch(prefix: string, rest: string, vArr: JSON)
    requires (prefix == "#l" || prefix == "@s" || prefix == "@p" || prefix == "@n") && !vArr.Null?
    ensures var token := Str(prefix + rest);
            GetVariable(token, vArr) ==
            if prefix == "#l" then ResolveLength(token, rest, vArr, false)
            else if prefix == "@n" then ResolveScalar(token, rest, vArr)
            else ResolveSeries(token, rest, vArr, false)
  {
    StripTokenPrefix(prefix, rest);
    assert (prefix + rest)[..2] == prefix;
  }

  lemma {:induction false} StripTokenPrefix(prefix: string, rest: string)
    requires |prefix| == 2
    ensures StartsWith(prefix + rest, prefix) && (prefix + rest)[2..] == rest
  {
    assert (prefix + rest)[..2] == prefix;
  }

  /** `#l<N>` with `0 <= N < len(v_arr)` resolves to the length of row N. */
  lemma {:induction false} ResolvesLength(rows: seq<JSON>, n: nat)
    requires n < |rows| && rows[n].Arr?
    ensures GetVariable(Str("#l" + IntToString(n)), Arr(rows)) == Ok(Int(|rows[n].items|))
  {
    var digits := IntToString(n);
    var token := Str("#l" + digits);
    StripTokenPrefix("#l", digits);
    assert GetVariable(token, Arr(rows)) == ResolveLength(token, digits, Arr(rows), false);
    LengthOfRow(rows, n, token);
  }

  lemma {:induction false} LengthOfRow(rows: seq<JSON>, n: nat, token: JSON)
    requires n < |rows| && rows[n].Arr?
    ensures ResolveLength(token, IntToString(n), Arr(rows), false) == Ok(Int(|rows[n].items|))
  {
    IntOfString(n);
    assert Len(Arr(rows)) == Ok(|rows|);
    assert Index(Arr(rows), n) == Ok(rows[n]);
    assert Len(rows[n]) == Ok(|rows[n].items|);
  }

  lemma {:induction false} SeriesOfRow(rows: seq<JSON>, n: nat, token: JSON)
    requires n < |rows| && rows[n].Arr?
    ensures ResolveSeries(token, IntToString(n), Arr(rows), false) == JoinValues(rows[n])
    ensures JoinValues(rows[n]).Ok?
  {
    IntOfString(n);
  }

  lemma {:induction false} IntOfString(n: int)
    ensures IntOf(IntToString(n)) == Ok(n)
  {
    ParseIntToString(n);
  }

  /** `@s<N>` and `@p<N>` with `0 <= N < len(v_arr)` both resolve to row N joined
      with ", ". */
  lemma {:induction false} ResolvesSeries(rows: seq<JSON>, n: nat, prefix: string)
    requires n < |rows| && rows[n].Arr? && (prefix == "@s" || prefix == "@p")
    ensures GetVariable(Str(prefix + IntToString(n)), Arr(rows)) == JoinValues(rows[n])
    ensures JoinValues(rows[n]).Ok?
  {
    var digits := IntToString(n);
    var token := Str(prefix + digits);
    StripTokenPrefix(prefix, digits);
    assert token.s[..2] == prefix;
    assert GetVariable(token, Arr(rows)) == ResolveSeries(token, digits, Arr(rows), false);
    SeriesOfRow(rows, n, token);
  }

  /** The as-written chain sends a prefixed token to the same resolvers, with
      the source's row check. */
  lemma {:induction false} DispatchAsWritten(prefix: string, rest: string, vArr: JSON)
    requires (prefix == "#l" || prefix == "@s" || prefix == "@p") && !vArr.Null?
    ensures var token := Str(prefix + rest);
            GetVariableAsWritten(token, vArr) ==
            if prefix == "#l" then ResolveLength(token, rest, vArr, true) else ResolveSeries(token, rest, vArr, true)
  {
    StripTokenPrefix(prefix, rest);
    assert (prefix + rest)[..2] == prefix;
  }

  /** With the row check failing, both resolvers give back the token. */
  lemma {:induction false} RowCheckFails(token: JSON, rows: seq<JSON>, n: int, asWritten: bool)
    requires !RowInRange(n, |rows|, asWritten)
    ensures ResolveLength(token, IntToString(n), Arr(rows), asWritten) == Ok(token)
    ensures ResolveSeries(token, IntToString(n), Arr(rows), asWritten) == Ok(token)
  {
    IntOfString(n);
    assert Len(Arr(rows)) == Ok(|rows|);
  }

  /** `#l<N>`, `@s<N>` and `@p<N>` with N outside `0 .. len(v_arr) - 1`, a
      negative N included, give back the token itself. */
  lemma {:induction false} RowTokenFallback(rows: seq<JSON>, n: int, prefix: string)
    requires prefix == "#l" || prefix == "@s" || prefix == "@p"
    requires n < 0 || n >= |rows|
    ensures GetVariable(Str(prefix + IntToString(n)), Arr(rows)) == Ok(Str(prefix + IntToString(n)))
  {
    var token := Str(prefix + IntToString(n));
    Dispatch(prefix, IntToString(n), Arr(rows));
    RowCheckFails(token, rows, n, false);
  }

  /** As written, a negative N from `-len(v_arr)` on passes `N < len(v_arr)`
      and reads row `len(v_arr) + N`, as Python indexing does. */
  lemma {:induction false} NegativeRowWraps(rows: seq<JSON>, n: int, prefix: string)
    requires prefix == "#l" || prefix == "@s" || prefix == "@p"
    requires -|rows| <= n < 0 && rows[|rows| + n].Arr?
    ensures prefix == "#l" ==>
              GetVariableAsWritten(Str(prefix + IntToString(n)), Arr(rows)) == Ok(Int(|rows[|rows| + n].items|))
    ensures prefix != "#l" ==>
              GetVariableAsWritten(Str(prefix + IntToString(n)), Arr(rows)) == JoinValues(rows[|rows| + n])
  {
    var token := Str(prefix + IntToString(n));
    DispatchAsWritten(prefix, IntToString(n), Arr(rows));
    IntOfString(n);
    assert Len(Arr(rows)) == Ok(|rows|);
    assert Index(Arr(rows), n) == Ok(rows[|rows| + n]);
    assert Len(rows[|rows| + n]) == Ok(|rows[|rows| + n].items|);
  }

  /** As written, a negative N below `-len(v_arr)` also passes `N < len(v_arr)`,
      and `v_arr[N]` raises `IndexError`; corrected, the token stays. */
  lemma {:induction false} NegativeRowRaises(rows: seq<JSON>, n: int, prefix: string)
    requires prefix == "#l" || prefix == "@s" || prefix == "@p"
    requires n < -|rows|
    ensures GetVariableAsWritten(Str(prefix + IntToString(n)), Arr(rows)) == Err(IndexError)
    ensures GetVariable(Str(prefix + IntToString(n)), Arr(rows)) == Ok(Str(prefix + IntToString(n)))
  {
    DispatchAsWritten(prefix, IntToString(n), Arr(rows));
    IntOfString(n);
    assert Len(Arr(rows)) == Ok(|rows|);
    assert Index(Arr(rows), n) == Err(IndexError);
    RowTokenFallback(rows, n, prefix);
  }

  /** `#l-5` against two rows: as written it raises `IndexError`; corrected, it
      stays the token. */
  lemma {:induction false} LengthMinusFive(rows: seq<JSON>)
    requires |rows| == 2
    ensures GetVariableAsWritten(Str("#l-5"), Arr(rows)) == Err(IndexError)
    ensures GetVariable(Str("#l-5"), Arr(rows)) == Ok(Str("#l-5"))
  {
    MinusFiveText();
    NegativeRowRaises(rows, -5, "#l");
  }

  lemma {:induction false} MinusFiveText()
    ensures "#l" + IntToString(-5) == "#l-5"
  {
    assert NatToString(5) == "5";
  }

  /** Both readings agree on every row index that is not negative. */
  lemma {:induction false} AsWrittenAgrees(rows: seq<JSON>, n: nat, prefix: string)
    requires prefix == "#l" || prefix == "@s" || prefix == "@p"
    ensures GetVariableAsWritten(Str(prefix + IntToString(n)), Arr(rows)) == GetVariable(Str(prefix + IntToString(n)), Arr(rows))
  {
    var token := Str(prefix + IntToString(n));
    DispatchAsWritten(prefix, IntToString(n), Arr(rows));
    Dispatch(prefix, IntToString(n), Arr(rows));
    IntOfString(n);
    RowChecksAgree(token, IntToString(n), Arr(rows));
  }

  /** The two row checks agree when the index is not negative. */
  lemma {:induction false} RowChecksAgree(token: JSON, digits: string, vArr: JSON)
    requires IntOf(digits).Ok? ==> IntOf(digits).value >= 0
    ensures ResolveLength(token, digits, vArr, true) == ResolveLength(token, digits, vArr, false)
    ensures ResolveSeries(token, digits, vArr, true) == ResolveSeries(token, digits, vArr, false)
  {
    if IntOf(digits).Ok? && Len(vArr).Ok? {
      assert RowInRange(IntOf(digits).value, Len(vArr).value, true) == RowInRange(IntOf(digits).value, Len(vArr).value, false);
    }
  }

  lemma {:induction false} SplitIndices(i: int, j: int)
    ensures Split(IntToString(i) + ":" + IntToString(j), ':') == [IntToString(i), IntToString(j)]
  {
    var parts := [IntToString(i), IntToString(j)];
    NoColonInInt(i);
    NoColonInInt(j);
    SplitJoin(parts, ':');
    assert Join(parts, [':']) == IntToString(i) + ":" + IntToString(j);
  }

  lemma {:induction false} NoColonInInt(n: int)
    ensures ':' !in IntToString(n)
  {
    var ds := NatToString(if n < 0 then -n else n);
    assert forall k :: 0 <= k < |ds| ==> IsDigit(ds[k]);
  }

  lemma {:induction false} IntsOfPair(i: int, j: int)
    ensures IntsOf(Split(IntToString(i) + ":" + IntToString(j), ':')) == Ok([i, j])
  {
    SplitIndices(i, j);
    IntOfString(i);
    IntOfString(j);
    IntsOfTwo(IntToString(i), IntToString(j), i, j);
  }

  lemma {:induction false} IntsOfTwo(a: string, b: string, i: int, j: int)
    requires IntOf(a) == Ok(i) && IntOf(b) == Ok(j)
    ensures IntsOf([a, b]) == Ok([i, j])
  {
    IntsOfOne(b, j);
    assert [a, b][1..] == [b];
    assert [i] + [j] == [i, j];
  }

  lemma {:induction false} IntsOfOne(b: string, j: int)
    requires IntOf(b) == Ok(j)
    ensures IntsOf([b]) == Ok([j])
  {
    assert [b][1..] == [];
    assert IntsOf([]) == Ok([]);
    assert [j] + [] == [j];
  }

  /** `@n<I>:<J>` resolves to `v_arr[I][J]` when both indices are in range, and is
      left as the token when either is out of range. */
  lemma {:induction false} ResolvesScalar(rows: seq<JSON>, i: int, j: int)
    requires 0 <= i < |rows| ==> rows[i].Arr?
    ensures var token := Str("@n" + IntToString(i) + ":" + IntToString(j));
            && (0 <= i < |rows| && 0 <= j < |rows[i].items| ==> GetVariable(token, Arr(rows)) == Ok(rows[i].items[j]))
            && (!(0 <= i < |rows|) || !(0 <= j < |rows[i].items|) ==> GetVariable(token, Arr(rows)) == Ok(token))
  {
    var indices := IntToString(i) + ":" + IntToString(j);
    var token := Str("@n" + indices);
    assert "@n" + IntToString(i) + ":" + IntToString(j) == "@n" + indices;
    Dispatch("@n", indices, Arr(rows));
    IntsOfPair(i, j);
    ScalarOfRows(rows, i, j, token);
  }

  lemma {:induction false} ScalarOfRows(rows: seq<JSON>, i: int, j: int, token: JSON)
    requires 0 <= i < |rows| ==> rows[i].Arr?
    ensures var r := ScalarAt(token, [i, j], Arr(rows));
            && (0 <= i < |rows| && 0 <= j < |rows[i].items| ==> r == Ok(rows[i].items[j]))
            && (!(0 <= i < |rows|) || !(0 <= j < |rows[i].items|) ==> r == Ok(token))
  {
    assert Len(Arr(rows)) == Ok(|rows|);
    if 0 <= i < |rows| {
      assert Index(Arr(rows), i) == Ok(rows[i]);
      assert Len(rows[i]) == Ok(|rows[i].items|);
    }
  }



  // ---------------------------------------------------------------------------
  // Pre-illumination

  /** One pre-illumination triple `[led, duration, par]` as the text lists it;
      the duration and PAR are resolved as variable references. */
  /** The text of one pre-illumination entry: the LED name, then the duration
      and the PAR, each on its own line. */
  function IlluminationText(name: string, duration: JSON, par: JSON): string
  {
    name + "\n*Duration (ms)*: " + ToStr(duration) + "\n*PAR*: " + ToStr(par)
  }

  /** One `[led, duration, par]` triple: it fails exactly when the LED is not in
      the table or a reference does not resolve, and otherwise shows the LED's
      name with the resolved duration and PAR. A list shorter than three fails:
      with `IndexError`, unless resolving the duration fails first. */
  function IlluminationLine(triple: JSON, vArr: JSON): (r: Result<string>)
    ensures triple.Arr? && |triple.items| < 3 ==> r.Err?
    ensures triple.Arr? && |triple.items| < 2 ==> r == Err(IndexError)
    ensures triple.Arr? && |triple.items| == 2 ==>
              r == (if GetVariable(triple.items[1], vArr).Ok? then Err(IndexError)
                    else Err(GetVariable(triple.items[1], vArr).error))
    ensures triple.Arr? && |triple.items| >= 3 ==>
              (r.Ok? <==> LedName(triple.items[0]).Ok? && GetVariable(triple.items[1], vArr).Ok?
                          && GetVariable(triple.items[2], vArr).Ok?)
    ensures triple.Arr? && |triple.items| >= 3 && r.Ok? ==>
              r.value == IlluminationText(LedName(triple.items[0]).value, GetVariable(triple.items[1], vArr).value,
                                          GetVariable(triple.items[2], vArr).value)
  {
    var duration :- Index(triple, 1);
    var pos1 :- GetVariable(duration, vArr);
    var par :- Index(triple, 2);
    var pos2 :- GetVariable(par, vArr);
    var led :- Index(triple, 0);
    var name :- LedName(led);
    Ok(IlluminationText(name, pos1, pos2))
  }

  /** A list of triples: one line per triple, in order, failing when any triple does. */
  function IlluminationLines(triples: seq<JSON>, vArr: JSON): (r: Result<seq<string>>)
    ensures r.Ok? <==> forall k :: 0 <= k < |triples| ==> IlluminationLine(triples[k], vArr).Ok?
    ensures r.Ok? ==> |r.value| == |triples|
    ensures r.Ok? ==> forall k :: 0 <= k < |triples| ==> r.value[k] == IlluminationLine(triples[k], vArr).value
  {
    if |triples| == 0 then Ok([])
    else
      var line :- IlluminationLine(triples[0], vArr);
      var rest :- IlluminationLines(triples[1..], vArr);
      assert forall k :: 1 <= k < |triples| ==> triples[k] == triples[1..][k - 1];
      Ok([line] + rest)
  }

  /** The step declares a pre-illumination list. */
  predicate HasPreillumination(step: Dict)
  {
    Has(step, "pre_illumination") && Field(step, "pre_illumination").Arr?
  }

  const IlluminationHeading := "**Illumination**\n"

  /** `preillumination(element, v_arr)`: `None` without a pre-illumination list;
      an empty list raises `IndexError`; a list of lists gives the heading and
      one line per triple joined by newlines; any other list is a single triple
      shown under the heading. */
  function Preillumination(step: Dict, vArr: JSON): (r: Result<Option<string>>)
    ensures !HasPreillumination(step) ==> r == Ok(None)
    ensures r.Ok? ==> (r.value.Some? <==> HasPreillumination(step))
    ensures r.Ok? && r.value.Some? ==> StartsWith(r.value.value, IlluminationHeading)
    ensures HasPreillumination(step) && |Field(step, "pre_illumination").items| == 0 ==> r == Err(IndexError)
    ensures HasPreillumination(step) && |Field(step, "pre_illumination").items| > 0 &&
            Field(step, "pre_illumination").items[0].Arr? ==>
              (r.Ok? <==> IlluminationLines(Field(step, "pre_illumination").items, vArr).Ok?) &&
              (r.Ok? ==> r.value == Some(IlluminationHeading + Join(IlluminationLines(Field(step, "pre_illumination").items, vArr).value, "\n")))
    ensures HasPreillumination(step) && |Field(step, "pre_illumination").items| > 0 &&
            !Field(step, "pre_illumination").items[0].Arr? ==>
              (r.Ok? <==> IlluminationLine(Field(step, "pre_illumination"), vArr).Ok?) &&
              (r.Ok? ==> r.value == Some(IlluminationHeading + IlluminationLine(Field(step, "pre_illumination"), vArr).value))
  {
    if !HasPreillumination(step) then Ok(None)
    else
      var p := Field(step, "pre_illumination");
      var first :- Index(p, 0);
      if first.Arr? then
        var lines :- IlluminationLines(p.items, vArr);
        var text := IlluminationHeading + Join(lines, "\n");
        assert text[..|IlluminationHeading|] == IlluminationHeading;
        Ok(Some(text))
      else
        var line :- IlluminationLine(p, vArr);
        var text := IlluminationHeading + line;
        assert text[..|IlluminationHeading|] == IlluminationHeading;
        Ok(Some(text))
  }

  /** A triple whose duration is an `@n<I>:<J>` reference in range and whose PAR
      is a literal shows the LED's name, the referenced element and the literal. */
  lemma {:induction false} IlluminationOfReference(led: JSON, rows: seq<JSON>, i: nat, j: nat, par: JSON)
    requires ToStr(led) in LedNames
    requires i < |rows| && rows[i].Arr? && j < |rows[i].items|
    requires !par.Str?
    ensures var token := Str("@n" + IntToString(i) + ":" + IntToString(j));
            IlluminationLine(Arr([led, token, par]), Arr(rows)) ==
              Ok(IlluminationText(LedNames[ToStr(led)], rows[i].items[j], par))
  {
    ResolvesScalar(rows, i, j);
    GetVariableUnchanged(par, Arr(rows));
  }

  // ---------------------------------------------------------------------------
  // Step content

  /** `do_once(element)`. */
  function DoOnce(step: Dict): (r: Option<string>)
    ensures r == Some("Runs only during *first* repeat") <==> Has(step, "do_once") && EqualsInt(Field(step, "do_once"), 1)
    ensures r == Some("Runs only during *last* repeat") <==> Has(step, "do_once") && EqualsInt(Field(step, "do_once"), -1)
    ensures r.None? <==> !Has(step, "do_once") || !(EqualsInt(Field(step, "do_once"), 1) || EqualsInt(Field(step, "do_once"), -1))
  {
    if !Has(step, "do_once") then None
    else
      var v := Field(step, "do_once");
      var out := if EqualsInt(v, 1) then Some("Runs only during *first* repeat") else None;
      if EqualsInt(v, -1) then Some("Runs only during *last* repeat") else out
  }

  /** The averages or repeats line: only for an int count above 1, with the delay
      appended when it is truthy. */
  function CountLine(step: Dict, countKey: string, delayKey: string, caption: string): seq<string>
  {
    var count := Field(step, countKey);
    if Truthy(count) && AsInt(count).Some? && AsInt(count).value > 1 then
      var delay := Field(step, delayKey);
      [caption + ToStr(count) + (if Truthy(delay) then " (delay between: " + ToStr(delay) + ")" else "")]
    else []
  }

  /** A count line exists exactly for an int count above 1 (a bool never passes),
      and it carries the delay exactly when the delay is truthy. */
  lemma {:induction false} CountLineGuard(step: Dict, countKey: string, delayKey: string, caption: string)
    ensures |CountLine(step, countKey, delayKey, caption)| <= 1
    ensures CountLine(step, countKey, delayKey, caption) != [] <==>
              exists n :: n > 1 && Field(step, countKey) == Int(n)
    ensures Field(step, countKey).Int? && Field(step, countKey).i > 1 && !Truthy(Field(step, delayKey)) ==>
              CountLine(step, countKey, delayKey, caption) == [caption + IntToString(Field(step, countKey).i)]
    ensures Field(step, countKey).Int? && Field(step, countKey).i > 1 && Truthy(Field(step, delayKey)) ==>
              CountLine(step, countKey, delayKey, caption) ==
              [caption + IntToString(Field(step, countKey).i) + " (delay between: " + ToStr(Field(step, delayKey)) + ")"]
  {
    var count := Field(step, countKey);
    if count.Int? && count.i > 1 {
      assert exists n :: n > 1 && count == Int(n);
      var delay := Field(step, delayKey);
      var head := caption + IntToString(count.i);
      assert ToStr(count) == IntToString(count.i);
      if Truthy(delay) {
        var tail := " (delay between: " + ToStr(delay) + ")";
        assert head + tail == head + " (delay between: " + ToStr(delay) + ")";
      } else {
        assert head + "" == head;
      }
    }
  }

  function SummaryLine(summary: Option<(string, nat)>, singular: string, plural: string): seq<string>
  {
    match summary
    case None => []
    case Some((text, count)) => ["*" + NGetText(singular, plural, count) + ":* " + text]
  }

  /** The lines of `content(element)`: title, averages, repeats, detectors, pulsed
      LEDs, non-pulsed LEDs, sensors, do-once. The title uses `label` without an
      index, and the detector noun is "Detector" for every count. */
  function ContentLines(step: Dict): (r: Result<seq<string>>)
    requires WellFormedStep(step)
    ensures r.Ok? <==> !EmptyIdField(step)
    ensures r.Err? ==> r.error == ValueError(NoArrays)
    ensures r.Ok? ==> |r.value| >= 1 && r.value[0] == TitleLine(step)
  {
    var body :- BodyLines(step);
    Ok([TitleLine(step)] + body)
  }

  /** The fields holding id lists. */
  const IdKeys := ["detectors", "pulsed_lights", "nonpulsed_lights", "environmental"]

  /** Some id field is an empty list, which numpy cannot summarise. */
  predicate EmptyIdField(step: Dict)
  {
    exists k :: 0 <= k < |IdKeys| && EmptyField(step, IdKeys[k])
  }

  predicate EmptyField(step: Dict, key: string)
  {
    Has(step, key) && Field(step, key).Arr? && |Field(step, key).items| == 0
  }

  lemma {:induction false} EmptyIdFieldCases(step: Dict)
    ensures EmptyIdField(step) <==>
              EmptyField(step, "detectors") || EmptyField(step, "pulsed_lights")
              || EmptyField(step, "nonpulsed_lights") || EmptyField(step, "environmental")
  {
    assert IdKeys[0] == "detectors" && IdKeys[1] == "pulsed_lights";
    assert IdKeys[2] == "nonpulsed_lights" && IdKeys[3] == "environmental";
  }

  /** The bold title line. */
  function TitleLine(step: Dict): string
  {
    "**" + ToStr(Label(step, -1)) + "**"
  }

  /** The lines under the title: the counts, the four hardware summaries and the
      single-shot marker, each present only when the step asks for it. */
  function BodyLines(step: Dict): (r: Result<seq<string>>)
    requires WellFormedStep(step)
    ensures r.Ok? <==> !EmptyIdField(step)
    ensures r.Err? ==> r.error == ValueError(NoArrays)
  {
    EmptyIdFieldCases(step);
    var averages := CountLine(step, "averages", "averages_delay", "*Averages*: ");
    var repeats := CountLine(step, "protocol_repeats", "protocols_delay", "*Repeats*: ");
    var detectors :- TableSummary(step, "detectors", DetectorNames);
    var pulsed :- TableSummary(step, "pulsed_lights", LedNames);
    var nonPulsed :- TableSummary(step, "nonpulsed_lights", LedNames);
    var sensors :- SensorSummary(step);
    Ok(BodyOf(averages, repeats, detectors, pulsed, nonPulsed, sensors, DoOnce(step)))
  }

  /** The lines under the title, put together from their parts. */
  function BodyOf(averages: seq<string>, repeats: seq<string>,
                  detectors: Option<(string, nat)>, pulsed: Option<(string, nat)>,
                  nonPulsed: Option<(string, nat)>, sensors: Option<(string, nat)>, once: Option<string>): seq<string>
  {
    averages + repeats
    + SummaryLine(detectors, "Detector", "Detector")
    + SummaryLine(pulsed, "Pulsed LED", "Pulsed LEDs")
    + SummaryLine(nonPulsed, "Non Pulsed LED", "Non Pulsed LEDs")
    + SummaryLine(sensors, "Sensor", "Sensors")
    + (match once case Some(t) => [t] case None => [])
  }

  /** `content(element)`: the lines joined by newlines. */
  function Content(step: Dict): (r: Result<string>)
    requires WellFormedStep(step)
    ensures r.Ok? <==> !EmptyIdField(step)
    ensures r.Err? ==> r.error == ValueError(NoArrays)
    ensures r.Ok? ==> r.value == TitleLine(step) || StartsWith(r.value, TitleLine(step) + "\n")
  {
    var lines :- ContentLines(step);
    Ok(Join(lines, "\n"))
  }

  /** The lines under the title in the source's order: the averages and
      repeats counts, one captioned line for each hardware summary that is
      present (detectors, pulsed LEDs, non-pulsed LEDs, sensors; the noun is
      singular for a count of 1, except "Detector", which never changes), and
      last the do-once note. */
  lemma {:induction false} ContentLayout(averages: seq<string>, repeats: seq<string>,
                                         detectors: Option<(string, nat)>, pulsed: Option<(string, nat)>,
                                         nonPulsed: Option<(string, nat)>, sensors: Option<(string, nat)>, once: Option<string>)
    ensures BodyOf(averages, repeats, detectors, pulsed, nonPulsed, sensors, once)
            == averages + repeats
               + (if detectors.None? then [] else ["*Detector:* " + detectors.value.0])
               + (if pulsed.None? then []
                  else [(if pulsed.value.1 == 1 then "*Pulsed LED:* " else "*Pulsed LEDs:* ") + pulsed.value.0])
               + (if nonPulsed.None? then []
                  else [(if nonPulsed.value.1 == 1 then "*Non Pulsed LED:* " else "*Non Pulsed LEDs:* ") + nonPulsed.value.0])
               + (if sensors.None? then []
                  else [(if sensors.value.1 == 1 then "*Sensor:* " else "*Sensors:* ") + sensors.value.0])
               + (if once.Some? then [once.value] else [])
  {
    CaptionTexts();
    SummaryCaption(detectors, "Detector", "Detector", "*Detector:* ", "*Detector:* ");
    SummaryCaption(pulsed, "Pulsed LED", "Pulsed LEDs", "*Pulsed LED:* ", "*Pulsed LEDs:* ");
    SummaryCaption(nonPulsed, "Non Pulsed LED", "Non Pulsed LEDs", "*Non Pulsed LED:* ", "*Non Pulsed LEDs:* ");
    SummaryCaption(sensors, "Sensor", "Sensors", "*Sensor:* ", "*Sensors:* ");
  }

  /** The captions of `content`, spelled out. */
  lemma {:induction false} CaptionTexts()
    ensures "*Detector:* " == "*" + "Detector" + ":* "
    ensures "*Pulsed LED:* " == "*" + "Pulsed LED" + ":* " && "*Pulsed LEDs:* " == "*" + "Pulsed LEDs" + ":* "
    ensures "*Non Pulsed LED:* " == "*" + "Non Pulsed LED" + ":* " && "*Non Pulsed LEDs:* " == "*" + "Non Pulsed LEDs" + ":* "
    ensures "*Sensor:* " == "*" + "Sensor" + ":* " && "*Sensors:* " == "*" + "Sensors" + ":* "
  {
  }


  /** A summary line reads its caption, then the summary text. */
  lemma {:induction false} SummaryCaption(summary: Option<(string, nat)>, singular: string, plural: string, one: string, many: string)
    requires one == "*" + singular + ":* " && many == "*" + plural + ":* "
    ensures SummaryLine(summary, singular, plural) ==
            if summary.None? then [] else [(if summary.value.1 == 1 then one else many) + summary.value.0]
  {
    match summary
    case None =>
    case Some((text, count)) =>
      assert "*" + NGetText(singular, plural, count) + ":* " + text == (if count == 1 then one else many) + text;
  }

  /** The title is the bold label, or "Protocol" for a step without one: the
      title never carries a position. */
  lemma {:induction false} ContentTitle(step: Dict)
    requires WellFormedStep(step)
    ensures ContentLines(step).Ok? ==>
              ContentLines(step).value[0] ==
              "**" + (if Has(step, "label") then ToStr(Field(step, "label")) else "Protocol") + "**"
  {
  }
}
