/**
 * What the feed client's translations promise: which keys the dictionaries
 * hold, where each value comes from, which later element wins a key, the
 * document order of the lists, the defaults of optional fields, and exactly
 * when a translation fails.
 */
module NextBusProperties {
  import opened Wrappers
  import opened XmlTree
  import opened ChildLoop
  import opened NextBus

  // ---------------------------------------------------------------------------
  // Agency list

  predicate HasAgencyAttrs(e: Element)
  {
    "title" in e.attrib && "regionTitle" in e.attrib && "tag" in e.attrib
  }

  /** The agency list fails exactly when some agency lacks title, regionTitle or tag. */
  lemma AgenciesFailIff(cs: seq<Element>)
    ensures Agencies(cs).Failure? <==> exists i :: 0 <= i < |cs| && !HasAgencyAttrs(cs[i])
  {
    FoldFailsIff(AgencyStep, map[], cs, (e: Element) => !HasAgencyAttrs(e));
  }

  /** The keys one turn of the agency loop adds: the tag, and "shortTitle" when present. */
  lemma AgencyStepKeys(agencies: map<string, Value>, c: Element)
    requires AgencyStep(agencies, c).Success?
    ensures HasAgencyAttrs(c)
    ensures AgencyStep(agencies, c).value.Keys
         == agencies.Keys + {c.attrib["tag"]} + (if "shortTitle" in c.attrib then {"shortTitle"} else {})
  {
  }

  /** The keys are the agency tags, plus the literal key "shortTitle" when some agency has a short title. */
  lemma {:induction false} AgenciesKeys(cs: seq<Element>)
    requires Agencies(cs).Success?
    ensures Agencies(cs).value.Keys
         == AttrValues(cs, "tag") + (if AttrValues(cs, "shortTitle") == {} then {} else {"shortTitle"})
    decreases |cs|
  {
    if cs != [] {
      var p, c := cs[..|cs| - 1], cs[|cs| - 1];
      assert cs == p + [c];
      FoldLast(AgencyStep, map[], cs);
      AgenciesKeys(p);
      AgencyStepKeys(Agencies(p).value, c);
      AttrValuesSnoc(p, c, "tag");
      AttrValuesSnoc(p, c, "shortTitle");
    }
  }

  /** An agency's key holds the record of the last agency with that tag: its
      title and regionTitle, and nothing else. For the key "shortTitle" this
      holds when no agency from that one on has a short title. */
  lemma {:induction false} AgenciesLatest(cs: seq<Element>, i: int, k: string)
    requires Agencies(cs).Success? && LastWithAttr(cs, i, "tag", k)
    requires k == "shortTitle" ==> forall j :: i <= j < |cs| ==> "shortTitle" !in cs[j].attrib
    ensures HasAgencyAttrs(cs[i]) && k in Agencies(cs).value
    ensures Agencies(cs).value[k] == AgencyRecord(cs[i].attrib["title"], cs[i].attrib["regionTitle"])
    ensures Agencies(cs).value[k].entries.Keys == {"title", "regionTitle"}
    decreases |cs|
  {
    var p := cs[..|cs| - 1];
    if i < |cs| - 1 {
      assert LastWithAttr(p, i, "tag", k);
      AgenciesLatest(p, i, k);
    }
  }

  /** The outer key "shortTitle" holds the short title of the last agency that
      has one, unless a later agency is itself tagged "shortTitle". */
  lemma {:induction false} AgenciesShortTitle(cs: seq<Element>, i: int)
    requires Agencies(cs).Success? && 0 <= i < |cs| && "shortTitle" in cs[i].attrib
    requires forall j :: i < j < |cs| ==>
               "shortTitle" !in cs[j].attrib && !("tag" in cs[j].attrib && cs[j].attrib["tag"] == "shortTitle")
    ensures "shortTitle" in Agencies(cs).value
    ensures Agencies(cs).value["shortTitle"] == Str(cs[i].attrib["shortTitle"])
    decreases |cs|
  {
    var p := cs[..|cs| - 1];
    if i < |cs| - 1 {
      AgenciesShortTitle(p, i);
    }
  }

  // ---------------------------------------------------------------------------
  // Route list

  /** The route list fails exactly when some route lacks title or tag. */
  lemma RoutesFailIff(cs: seq<Element>)
    ensures Routes(cs).Failure? <==> exists i :: 0 <= i < |cs| && ("title" !in cs[i].attrib || "tag" !in cs[i].attrib)
  {
    FoldFailsIff(RouteStep, map[], cs, (e: Element) => "title" !in e.attrib || "tag" !in e.attrib);
  }

  /** The route table's keys are exactly the routes' tags. */
  lemma {:induction false} RoutesKeys(cs: seq<Element>)
    requires Routes(cs).Success?
    ensures Routes(cs).value.Keys == AttrValues(cs, "tag")
    decreases |cs|
  {
    if cs != [] {
      var p, c := cs[..|cs| - 1], cs[|cs| - 1];
      assert cs == p + [c];
      RoutesKeys(p);
      AttrValuesSnoc(p, c, "tag");
    }
  }

  /** Each route id maps to the title of the last route with that tag. */
  lemma {:induction false} RoutesLatest(cs: seq<Element>, i: int, k: string)
    requires Routes(cs).Success? && LastWithAttr(cs, i, "tag", k)
    ensures "title" in cs[i].attrib && k in Routes(cs).value
    ensures Routes(cs).value[k] == cs[i].attrib["title"]
    decreases |cs|
  {
    var p := cs[..|cs| - 1];
    if i < |cs| - 1 {
      assert LastWithAttr(p, i, "tag", k);
      RoutesLatest(p, i, k);
    }
  }

  /** `<body><route tag="R1" title="First"/><route tag="R2" title="Second"/></body>`. */
  lemma RoutesExample()
    ensures Routes([Element("route", map["tag" := "R1", "title" := "First"], []),
                    Element("route", map["tag" := "R2", "title" := "Second"], [])])
         == Success(map["R1" := "First", "R2" := "Second"])
  {
    var r1 := Element("route", map["tag" := "R1", "title" := "First"], []);
    var r2 := Element("route", map["tag" := "R2", "title" := "Second"], []);
    assert [r1][..0] == [];
    assert Fold(RouteStep, map[], [r1][..0]) == Success(map[]);
    assert RouteStep(map[], r1) == Success(map["R1" := "First"]);
    assert Routes([r1]) == Success(map["R1" := "First"]);
    assert [r1, r2][..1] == [r1];
    assert Routes([r1, r2]) == RouteStep(map["R1" := "First"], r2);
  }

  // ---------------------------------------------------------------------------
  // Route configuration: one direction's stop list

  /** The stop list has one tag per child of the direction, in document order. */
  lemma {:induction false} StopTagsInOrder(cs: seq<Element>)
    requires StopTags(cs).Success?
    ensures |StopTags(cs).value| == |cs|
    ensures forall j :: 0 <= j < |cs| ==> "tag" in cs[j].attrib && StopTags(cs).value[j] == Str(cs[j].attrib["tag"])
    decreases |cs|
  {
    if cs != [] {
      StopTagsInOrder(cs[..|cs| - 1]);
    }
  }

  lemma StopTagsFailIff(cs: seq<Element>)
    ensures StopTags(cs).Failure? <==> exists j :: 0 <= j < |cs| && "tag" !in cs[j].attrib
  {
    FoldFailsIff(StopTagStep, [], cs, (e: Element) => "tag" !in e.attrib);
  }

  /** A direction's record: it fails exactly when the title or a child's tag is
      missing; otherwise it holds the title, the children's tags in document
      order, and the name exactly when the attribute is present. */
  lemma DirectionRecordSpec(c: Element)
    ensures DirectionRecord(c).Success?
        <==> "title" in c.attrib && forall j :: 0 <= j < |c.children| ==> "tag" in c.children[j].attrib
    ensures DirectionRecord(c).Success? ==>
              var d := DirectionRecord(c).value;
              && d.Dict?
              && d.entries.Keys == {"title", "stops"} + (if "name" in c.attrib then {"name"} else {})
              && d.entries["title"] == Str(c.attrib["title"])
              && ("name" in c.attrib ==> d.entries["name"] == Str(c.attrib["name"]))
              && d.entries["stops"].List?
              && |d.entries["stops"].items| == |c.children|
              && forall j :: 0 <= j < |c.children| ==> d.entries["stops"].items[j] == Str(c.children[j].attrib["tag"])
  {
    StopTagsFailIff(c.children);
    if DirectionRecord(c).Success? {
      StopTagsInOrder(c.children);
    }
  }

  // ---------------------------------------------------------------------------
  // Route configuration: the route element's children

  predicate BadStop(c: Element)
  {
    !("lat" in c.attrib && "lon" in c.attrib && "title" in c.attrib && "tag" in c.attrib)
  }

  predicate BadDirection(c: Element)
  {
    || !("title" in c.attrib && "tag" in c.attrib)
    || exists j :: 0 <= j < |c.children| && "tag" !in c.children[j].attrib
  }

  /** The route configuration loop fails exactly when a stop lacks lat, lon,
      title or tag, or a direction lacks title or tag or has a child without a tag. */
  lemma RouteCfgFailIff(cs: seq<Element>)
    ensures RouteCfgOf(cs).Failure?
        <==> exists i :: 0 <= i < |cs| && ((cs[i].tag == "stop" && BadStop(cs[i])) || (cs[i].tag == "direction" && BadDirection(cs[i])))
  {
    var bad := (e: Element) => (e.tag == "stop" && BadStop(e)) || (e.tag == "direction" && BadDirection(e));
    forall acc, c ensures RouteCfgStep(acc, c).Failure? <==> bad(c) {
      DirectionRecordSpec(c);
    }
    FoldFailsIff(RouteCfgStep, RouteCfg(map[], map[]), cs, bad);
  }

  /** What one turn of the route loop does: a stop or a direction is recorded
      under its tag, any other child is skipped. */
  lemma RouteCfgStepEffect(cfg: RouteCfg, c: Element)
    requires RouteCfgStep(cfg, c).Success?
    ensures c.tag in {"stop", "direction"} ==> "tag" in c.attrib
    ensures c.tag == "stop" ==>
              && StopRecord(c).Success?
              && RouteCfgStep(cfg, c).value == cfg.(stops := cfg.stops[c.attrib["tag"] := StopRecord(c).value])
    ensures c.tag == "direction" ==>
              && DirectionRecord(c).Success?
              && RouteCfgStep(cfg, c).value == cfg.(directions := cfg.directions[c.attrib["tag"] := DirectionRecord(c).value])
    ensures c.tag !in {"stop", "direction"} ==> RouteCfgStep(cfg, c).value == cfg
  {
  }

  /** The keys one turn of the route loop adds: the tag of a stop or of a direction. */
  lemma RouteCfgStepKeys(cfg: RouteCfg, c: Element)
    requires RouteCfgStep(cfg, c).Success?
    ensures c.tag in {"stop", "direction"} ==> "tag" in c.attrib
    ensures RouteCfgStep(cfg, c).value.stops.Keys
         == cfg.stops.Keys + (if c.tag == "stop" then {c.attrib["tag"]} else {})
    ensures RouteCfgStep(cfg, c).value.directions.Keys
         == cfg.directions.Keys + (if c.tag == "direction" then {c.attrib["tag"]} else {})
  {
  }

  /** The keys of `stops` are the tags of the stop children, those of
      `directions` the tags of the direction children. */
  lemma {:induction false} RouteCfgKeys(cs: seq<Element>)
    requires RouteCfgOf(cs).Success?
    ensures RouteCfgOf(cs).value.stops.Keys == AttrValues(OfKind(cs, {"stop"}), "tag")
    ensures RouteCfgOf(cs).value.directions.Keys == AttrValues(OfKind(cs, {"direction"}), "tag")
    decreases |cs|
  {
    if cs != [] {
      var p, c := cs[..|cs| - 1], cs[|cs| - 1];
      assert cs == p + [c];
      FoldLast(RouteCfgStep, RouteCfg(map[], map[]), cs);
      RouteCfgKeys(p);
      RouteCfgStepKeys(RouteCfgOf(p).value, c);
      AttrValuesOfKindSnoc(p, c, "stop", "tag");
      AttrValuesOfKindSnoc(p, c, "direction", "tag");
    }
  }

  /** A stop tag holds the record of the last stop child with that tag. */
  lemma {:induction false} RouteCfgLatestStop(cs: seq<Element>, i: int, k: string)
    requires RouteCfgOf(cs).Success? && LastOfKind(cs, i, "stop", "tag", k)
    ensures StopRecord(cs[i]).Success? && k in RouteCfgOf(cs).value.stops
    ensures RouteCfgOf(cs).value.stops[k] == StopRecord(cs[i]).value
    decreases |cs|
  {
    var p, c := cs[..|cs| - 1], cs[|cs| - 1];
    assert cs == p + [c];
    FoldLast(RouteCfgStep, RouteCfg(map[], map[]), cs);
    RouteCfgStepEffect(RouteCfgOf(p).value, c);
    if i < |cs| - 1 {
      LastOfKindPrefix(cs, i, "stop", "tag", k);
      RouteCfgLatestStop(p, i, k);
      assert p[i] == cs[i];
      assert !(c.tag == "stop" && c.attrib["tag"] == k) by {
        assert cs[|cs| - 1] == c;
      }
    }
  }

  /** A direction tag holds the record of the last direction child with that tag. */
  lemma {:induction false} RouteCfgLatestDirection(cs: seq<Element>, i: int, k: string)
    requires RouteCfgOf(cs).Success? && LastOfKind(cs, i, "direction", "tag", k)
    ensures DirectionRecord(cs[i]).Success? && k in RouteCfgOf(cs).value.directions
    ensures RouteCfgOf(cs).value.directions[k] == DirectionRecord(cs[i]).value
    decreases |cs|
  {
    var p, c := cs[..|cs| - 1], cs[|cs| - 1];
    assert cs == p + [c];
    FoldLast(RouteCfgStep, RouteCfg(map[], map[]), cs);
    RouteCfgStepEffect(RouteCfgOf(p).value, c);
    if i < |cs| - 1 {
      LastOfKindPrefix(cs, i, "direction", "tag", k);
      RouteCfgLatestDirection(p, i, k);
      assert p[i] == cs[i];
      assert !(c.tag == "direction" && c.attrib["tag"] == k) by {
        assert cs[|cs| - 1] == c;
      }
    }
  }

  /** Children that are neither stops nor directions make no difference. */
  lemma {:induction false} RouteCfgIgnoresOthers(cs: seq<Element>)
    ensures RouteCfgOf(OfKind(cs, {"stop", "direction"})) == RouteCfgOf(cs)
    decreases |cs|
  {
    if cs != [] {
      var p, c := cs[..|cs| - 1], cs[|cs| - 1];
      assert cs == p + [c];
      var q := OfKind(p, {"stop", "direction"});
      OfKindSnoc(p, c, {"stop", "direction"});
      RouteCfgIgnoresOthers(p);
      if c.tag in {"stop", "direction"} {
        assert (q + [c])[..|q|] == q;
      } else {
        assert OfKind(cs, {"stop", "direction"}) == q;
      }
    }
  }

  // ---------------------------------------------------------------------------
  // Predictions: one direction's list

  /** A direction's predictions: one record per child, in document order. */
  lemma {:induction false} PredictionListInOrder(cs: seq<Element>)
    requires PredictionList(cs).Success?
    ensures |PredictionList(cs).value| == |cs|
    ensures forall j :: 0 <= j < |cs| ==>
              PredictionRecord(cs[j]).Success? && PredictionList(cs).value[j] == PredictionRecord(cs[j]).value
    decreases |cs|
  {
    FoldCollect(PredictionStep, PredictionRecord, cs);
  }

  lemma PredictionListFailIff(cs: seq<Element>)
    ensures PredictionList(cs).Failure? <==> exists j :: 0 <= j < |cs| && PredictionRecord(cs[j]).Failure?
  {
    FoldFailsIff(PredictionStep, [], cs, (e: Element) => PredictionRecord(e).Failure?);
  }

  predicate HasPredictionAttrs(p: Element)
  {
    && "epochTime" in p.attrib && "seconds" in p.attrib && "minutes" in p.attrib
    && "isDeparture" in p.attrib && IsBoolText(p.attrib["isDeparture"])
    && "dirTag" in p.attrib && "tripTag" in p.attrib
    && ("affectedByLayover" in p.attrib ==> IsBoolText(p.attrib["affectedByLayover"]))
    && ("isScheduleBased" in p.attrib ==> IsBoolText(p.attrib["isScheduleBased"]))
    && ("isDelayed" in p.attrib ==> IsBoolText(p.attrib["isDelayed"]))
  }

  /** A prediction fails exactly when a required attribute is missing or a
      boolean attribute is neither "true" nor "false". */
  lemma PredictionRecordFailIff(p: Element)
    ensures PredictionRecord(p).Success? <==> HasPredictionAttrs(p)
  {
  }

  /** Overriding a flag the record already holds keeps its keys. */
  lemma OverrideKeepsKeys(d: map<string, Value>, p: Element, name: string)
    requires name in d && OverrideFlag(d, p, name).Success?
    ensures OverrideFlag(d, p, name).value.Keys == d.Keys
  {
  }

  /** A prediction record has the nine keys, whichever optional flags are present. */
  lemma PredictionRecordKeys(p: Element)
    requires PredictionRecord(p).Success?
    ensures PredictionRecord(p).value.Dict?
    ensures PredictionRecord(p).value.entries.Keys
         == {"epochTime", "seconds", "minutes", "isDeparture", "dirTag", "tripTag",
             "affectedByLayover", "isScheduleBased", "isDelayed"}
  {
    var d0 := PredictionBase(p).value;
    var d1 := OverrideFlag(d0, p, "affectedByLayover").value;
    OverrideKeepsKeys(d0, p, "affectedByLayover");
    var d2 := OverrideFlag(d1, p, "isScheduleBased").value;
    OverrideKeepsKeys(d1, p, "isScheduleBased");
    var d3 := OverrideFlag(d2, p, "isDelayed").value;
    OverrideKeepsKeys(d2, p, "isDelayed");
    assert PredictionRecord(p) == Success(Dict(d3));
  }

  /** isDeparture is required and converted. */
  lemma PredictionRecordDeparture(p: Element)
    requires PredictionRecord(p).Success?
    ensures PredictionRecord(p).value.Dict? && "isDeparture" in PredictionRecord(p).value.entries
    ensures PredictionRecord(p).value.entries["isDeparture"] == Bool(p.attrib["isDeparture"] == "true")
  {
    PredictionRecordKeys(p);
    var d0 := PredictionBase(p).value;
    var d1 := OverrideFlag(d0, p, "affectedByLayover").value;
    var d2 := OverrideFlag(d1, p, "isScheduleBased").value;
    var d3 := OverrideFlag(d2, p, "isDelayed").value;
    assert PredictionRecord(p) == Success(Dict(d3));
    assert d0["isDeparture"] == Bool(p.attrib["isDeparture"] == "true");
    assert d3["isDeparture"] == d2["isDeparture"] == d1["isDeparture"] == d0["isDeparture"];
  }

  /** The string fields are copied verbatim. */
  lemma PredictionRecordStrings(p: Element)
    requires PredictionRecord(p).Success?
    ensures var d := PredictionRecord(p).value;
            && d.Dict? && {"epochTime", "seconds", "minutes", "dirTag", "tripTag"} <= d.entries.Keys
            && d.entries["epochTime"] == Str(p.attrib["epochTime"])
            && d.entries["seconds"] == Str(p.attrib["seconds"])
            && d.entries["minutes"] == Str(p.attrib["minutes"])
            && d.entries["dirTag"] == Str(p.attrib["dirTag"])
            && d.entries["tripTag"] == Str(p.attrib["tripTag"])
  {
    PredictionRecordKeys(p);
    var d0 := PredictionBase(p).value;
    var d1 := OverrideFlag(d0, p, "affectedByLayover").value;
    var d2 := OverrideFlag(d1, p, "isScheduleBased").value;
    assert PredictionRecord(p) == Success(Dict(OverrideFlag(d2, p, "isDelayed").value));
  }

  /** Each optional flag is false when absent and the converted attribute when present. */
  lemma PredictionRecordFlags(p: Element)
    requires PredictionRecord(p).Success?
    ensures var d := PredictionRecord(p).value;
            && d.Dict? && {"affectedByLayover", "isScheduleBased", "isDelayed"} <= d.entries.Keys
            && d.entries["affectedByLayover"] == Bool("affectedByLayover" in p.attrib && p.attrib["affectedByLayover"] == "true")
            && d.entries["isScheduleBased"] == Bool("isScheduleBased" in p.attrib && p.attrib["isScheduleBased"] == "true")
            && d.entries["isDelayed"] == Bool("isDelayed" in p.attrib && p.attrib["isDelayed"] == "true")
  {
    PredictionRecordKeys(p);
    var d0 := PredictionBase(p).value;
    var d1 := OverrideFlag(d0, p, "affectedByLayover").value;
    var d2 := OverrideFlag(d1, p, "isScheduleBased").value;
    assert PredictionRecord(p) == Success(Dict(OverrideFlag(d2, p, "isDelayed").value));
  }

  // ---------------------------------------------------------------------------
  // Predictions: one route block

  /** No direction child of the block carries the title `t`. */
  predicate NoDirectionTitled(cs: seq<Element>, t: string)
  {
    forall j :: 0 <= j < |cs| ==> !(cs[j].tag == "direction" && "title" in cs[j].attrib && cs[j].attrib["title"] == t)
  }

  predicate HasMessageAttrs(e: Element)
  {
    "priority" in e.attrib && "text" in e.attrib
  }

  /** A child of a route block that raises: a direction whose predictions fail
      or that has no title, or a message without priority or text. */
  predicate BadInfo(e: Element)
  {
    || (e.tag == "direction" && (PredictionList(e.children).Failure? || "title" !in e.attrib))
    || (e.tag == "message" && !HasMessageAttrs(e))
  }

  /** A route block fails exactly when one of its children is bad. */
  lemma LineFailIff(cs: seq<Element>)
    ensures LineOf(cs).Failure? <==> exists i :: 0 <= i < |cs| && BadInfo(cs[i])
  {
    FoldFailsIff(LineStep, EmptyLine, cs, BadInfo);
  }

  /** What one turn of a block's loop does to the messages list. */
  lemma LineStepMessages(line: Line, c: Element)
    requires LineStep(line, c).Success?
    ensures c.tag == "message" ==> HasMessageAttrs(c)
    ensures c.tag == "direction" ==> "title" in c.attrib && PredictionList(c.children).Success?
    ensures LineStep(line, c).value.messages
         == if c.tag == "message" then line.messages + [MessageRecord(c.attrib["priority"], c.attrib["text"])]
            else if c.tag == "direction" && c.attrib["title"] == "messages" then PredictionList(c.children).value
            else line.messages
  {
  }

  /** The {priority, text} records of message elements, in order. */
  function MessageRecords(ms: seq<Element>): seq<Value>
    requires forall m :: m in ms ==> HasMessageAttrs(m)
  {
    if ms == [] then []
    else
      var m := ms[|ms| - 1];
      assert m in ms && HasMessageAttrs(m);
      MessageRecords(ms[..|ms| - 1]) + [MessageRecord(m.attrib["priority"], m.attrib["text"])]
  }

  lemma MessageRecordsSnoc(ms: seq<Element>, m: Element)
    requires forall x :: x in ms ==> HasMessageAttrs(x)
    requires HasMessageAttrs(m)
    ensures MessageRecords(ms + [m]) == MessageRecords(ms) + [MessageRecord(m.attrib["priority"], m.attrib["text"])]
  {
    assert (ms + [m])[..|ms|] == ms;
  }

  /** The message records of the elements `p` followed by one more child `c`. */
  lemma MessageRecordsStep(p: seq<Element>, c: Element)
    requires forall m :: m in OfKind(p, {"message"}) ==> HasMessageAttrs(m)
    requires c.tag == "message" ==> HasMessageAttrs(c)
    ensures forall m :: m in OfKind(p + [c], {"message"}) ==> HasMessageAttrs(m)
    ensures c.tag == "message" ==>
              MessageRecords(OfKind(p + [c], {"message"}))
              == MessageRecords(OfKind(p, {"message"})) + [MessageRecord(c.attrib["priority"], c.attrib["text"])]
    ensures c.tag != "message" ==> MessageRecords(OfKind(p + [c], {"message"})) == MessageRecords(OfKind(p, {"message"}))
  {
    var ms := OfKind(p, {"message"});
    OfKindSnoc(p, c, {"message"});
    if c.tag == "message" {
      assert OfKind(p + [c], {"message"}) == ms + [c];
      MessageRecordsSnoc(ms, c);
    } else {
      assert OfKind(p + [c], {"message"}) == ms;
    }
  }

  /** One more child after the list was taken over: `before` is the taken-over
      list `preds` followed by the records of `q`'s messages. */
  lemma MessagesAfterStep(preds: seq<Value>, q: seq<Element>, c: Element, before: seq<Value>, after: seq<Value>)
    requires forall m :: m in OfKind(q, {"message"}) ==> HasMessageAttrs(m)
    requires before == preds + MessageRecords(OfKind(q, {"message"}))
    requires c.tag == "message" ==> HasMessageAttrs(c) && after == before + [MessageRecord(c.attrib["priority"], c.attrib["text"])]
    requires c.tag != "message" ==> after == before
    ensures forall m :: m in OfKind(q + [c], {"message"}) ==> HasMessageAttrs(m)
    ensures after == preds + MessageRecords(OfKind(q + [c], {"message"}))
  {
    MessageRecordsStep(q, c);
    if c.tag == "message" {
      var r, m := MessageRecords(OfKind(q, {"message"})), MessageRecord(c.attrib["priority"], c.attrib["text"]);
      assert (preds + r) + [m] == preds + (r + [m]);
    }
  }

  /** The same step, stated on the children `cs` whose last child is the new one. */
  lemma MessagesAfterLast(preds: seq<Value>, cs: seq<Element>, i: nat, before: seq<Value>, after: seq<Value>)
    requires i < |cs| - 1
    requires forall m :: m in OfKind(cs[..|cs| - 1][i + 1..], {"message"}) ==> HasMessageAttrs(m)
    requires before == preds + MessageRecords(OfKind(cs[..|cs| - 1][i + 1..], {"message"}))
    requires var c := cs[|cs| - 1];
             && (c.tag == "message" ==> HasMessageAttrs(c) && after == before + [MessageRecord(c.attrib["priority"], c.attrib["text"])])
             && (c.tag != "message" ==> after == before)
    ensures forall m :: m in OfKind(cs[i + 1..], {"message"}) ==> HasMessageAttrs(m)
    ensures after == preds + MessageRecords(OfKind(cs[i + 1..], {"message"}))
  {
    MessagesAfterStep(preds, cs[..|cs| - 1][i + 1..], cs[|cs| - 1], before, after);
    SuffixLast(cs, i + 1);
  }

  /** The messages are the block's message children, as {priority, text}, in
      document order (unless a direction titled "messages" takes over the list). */
  lemma {:induction false} LineMessagesInOrder(cs: seq<Element>)
    requires LineOf(cs).Success? && NoDirectionTitled(cs, "messages")
    ensures forall m :: m in OfKind(cs, {"message"}) ==> HasMessageAttrs(m)
    ensures LineOf(cs).value.messages == MessageRecords(OfKind(cs, {"message"}))
    decreases |cs|
  {
    if cs != [] {
      var p, c := cs[..|cs| - 1], cs[|cs| - 1];
      assert cs == p + [c];
      assert LineOf(cs) == LineStep(LineOf(p).value, c);
      assert NoDirectionTitled(p, "messages") by {
        forall j | 0 <= j < |p| ensures p[j] == cs[j] { }
      }
      LineMessagesInOrder(p);
      var line := LineOf(p).value;
      LineStepMessages(line, c);
      assert !(c.tag == "direction" && c.attrib["title"] == "messages") by {
        assert cs[|cs| - 1] == c;
      }
      MessageRecordsStep(p, c);
    }
  }

  /** The messages after the last child of a block, from those before it. */
  lemma LineOfLastMessages(cs: seq<Element>)
    requires cs != [] && LineOf(cs).Success?
    ensures LineOf(cs[..|cs| - 1]).Success?
    ensures var c, before, after := cs[|cs| - 1], LineOf(cs[..|cs| - 1]).value.messages, LineOf(cs).value.messages;
            && (c.tag == "message" ==> HasMessageAttrs(c) && after == before + [MessageRecord(c.attrib["priority"], c.attrib["text"])])
            && (c.tag == "direction" ==> "title" in c.attrib && PredictionList(c.children).Success?)
            && (c.tag == "direction" && c.attrib["title"] == "messages" ==> after == PredictionList(c.children).value)
            && (c.tag != "message" && !(c.tag == "direction" && c.attrib["title"] == "messages") ==> after == before)
  {
    FoldLast(LineStep, EmptyLine, cs);
    LineStepMessages(LineOf(cs[..|cs| - 1]).value, cs[|cs| - 1]);
  }

  /** Once a direction titled "messages" has put its predictions under that
      key, the later message children are appended to that list. */
  lemma {:induction false} LineMessagesAfterTakeover(cs: seq<Element>, i: int)
    requires LineOf(cs).Success? && LastOfKind(cs, i, "direction", "title", "messages")
    ensures PredictionList(cs[i].children).Success?
    ensures forall m :: m in OfKind(cs[i + 1..], {"message"}) ==> HasMessageAttrs(m)
    ensures LineOf(cs).value.messages
         == PredictionList(cs[i].children).value + MessageRecords(OfKind(cs[i + 1..], {"message"}))
    decreases |cs|, 1
  {
    if i == |cs| - 1 {
      var p := cs[..|cs| - 1];
      assert cs == p + [cs[i]];
      FoldLast(LineStep, EmptyLine, cs);
      LineStepMessages(LineOf(p).value, cs[i]);
      assert cs[i + 1..] == [];
      assert OfKind([], {"message"}) == [];
      assert LineOf(cs).value.messages == PredictionList(cs[i].children).value + MessageRecords([]);
    } else {
      LineMessagesAfterTakeoverLater(cs, i);
    }
  }

  /** The inductive step of the lemma above: a child after the takeover. */
  lemma {:induction false} LineMessagesAfterTakeoverLater(cs: seq<Element>, i: int)
    requires LineOf(cs).Success? && LastOfKind(cs, i, "direction", "title", "messages") && i < |cs| - 1
    ensures PredictionList(cs[i].children).Success?
    ensures forall m :: m in OfKind(cs[i + 1..], {"message"}) ==> HasMessageAttrs(m)
    ensures LineOf(cs).value.messages
         == PredictionList(cs[i].children).value + MessageRecords(OfKind(cs[i + 1..], {"message"}))
    decreases |cs|, 0
  {
    var p, c := cs[..|cs| - 1], cs[|cs| - 1];
    assert cs == p + [c];
    LineOfLastMessages(cs);
    LastOfKindPrefix(cs, i, "direction", "title", "messages");
    LineMessagesAfterTakeover(p, i);
    assert p[i] == cs[i];
    assert !(c.tag == "direction" && c.attrib["title"] == "messages");
    MessagesAfterLast(PredictionList(cs[i].children).value, cs, i, LineOf(p).value.messages, LineOf(cs).value.messages);
  }

  /** What one turn of a block's loop does to the entries besides "messages". */
  lemma LineStepEntries(line: Line, c: Element)
    requires LineStep(line, c).Success?
    ensures c.tag == "direction" ==> "title" in c.attrib && PredictionList(c.children).Success?
    ensures LineStep(line, c).value.entries
         == if c.tag == "direction" && c.attrib["title"] != "messages"
            then line.entries[c.attrib["title"] := List(PredictionList(c.children).value)]
            else line.entries
  {
  }

  /** The block's own "directions" entry stays the empty dictionary (unless a
      direction is titled "directions"). */
  lemma {:induction false} LineDirectionsEntryEmpty(cs: seq<Element>)
    requires LineOf(cs).Success? && NoDirectionTitled(cs, "directions")
    ensures "directions" in LineOf(cs).value.entries
    ensures LineOf(cs).value.entries["directions"] == Dict(map[])
    decreases |cs|
  {
    if cs != [] {
      var p, c := cs[..|cs| - 1], cs[|cs| - 1];
      assert cs == p + [c];
      FoldLast(LineStep, EmptyLine, cs);
      LineStepEntries(LineOf(p).value, c);
      assert NoDirectionTitled(p, "directions") by {
        forall j | 0 <= j < |p| ensures p[j] == cs[j] { }
      }
      LineDirectionsEntryEmpty(p);
      assert !(c.tag == "direction" && c.attrib["title"] == "directions") by {
        assert cs[|cs| - 1] == c;
      }
    }
  }

  /** The key one turn of a block's loop adds: a direction's title, unless it is "messages". */
  lemma LineStepKeys(line: Line, c: Element)
    requires LineStep(line, c).Success?
    ensures c.tag == "direction" ==> "title" in c.attrib
    ensures LineStep(line, c).value.entries.Keys
         == line.entries.Keys + (if c.tag == "direction" && c.attrib["title"] != "messages" then {c.attrib["title"]} else {})
  {
  }

  /** The keys the loop puts in a block besides "messages": "directions" and
      every direction's title. */
  lemma {:induction false} LineKeys(cs: seq<Element>)
    requires LineOf(cs).Success?
    ensures LineOf(cs).value.entries.Keys
         == {"directions"} + (AttrValues(OfKind(cs, {"direction"}), "title") - {"messages"})
    decreases |cs|
  {
    if cs != [] {
      var p, c := cs[..|cs| - 1], cs[|cs| - 1];
      assert cs == p + [c];
      LineKeys(p);
      assert LineOf(cs) == LineStep(LineOf(p).value, c);
      LineStepKeys(LineOf(p).value, c);
      OfKindSnoc(p, c, {"direction"});
      AttrValuesSnoc(OfKind(p, {"direction"}), c, "title");
    }
  }

  /** The keys of a block's record: "directions", "messages" and every direction's title. */
  lemma LineValueKeys(cs: seq<Element>)
    requires LineOf(cs).Success?
    ensures LineValue(LineOf(cs).value).entries.Keys
         == {"directions", "messages"} + AttrValues(OfKind(cs, {"direction"}), "title")
  {
    LineKeys(cs);
  }

  /** A direction's title holds the predictions of the last direction with
      that title, directly in the block's dictionary. */
  lemma {:induction false} LineLatestDirection(cs: seq<Element>, i: int, t: string)
    requires LineOf(cs).Success? && LastOfKind(cs, i, "direction", "title", t) && t != "messages"
    ensures PredictionList(cs[i].children).Success? && t in LineOf(cs).value.entries
    ensures LineOf(cs).value.entries[t] == List(PredictionList(cs[i].children).value)
    decreases |cs|
  {
    var p, c := cs[..|cs| - 1], cs[|cs| - 1];
    assert cs == p + [c];
    FoldLast(LineStep, EmptyLine, cs);
    LineStepEntries(LineOf(p).value, c);
    if i < |cs| - 1 {
      LastOfKindPrefix(cs, i, "direction", "title", t);
      LineLatestDirection(p, i, t);
      assert p[i] == cs[i];
      assert !(c.tag == "direction" && c.attrib["title"] == t) by {
        assert cs[|cs| - 1] == c;
      }
    }
  }

  // ---------------------------------------------------------------------------
  // Predictions: all route blocks

  /** A route block that raises: one of its children is bad, or it has no routeTag. */
  predicate BadBlock(b: Element)
  {
    LineOf(b.children).Failure? || "routeTag" !in b.attrib
  }

  /** The predictions fail exactly when some route block is bad. */
  lemma BlocksFailIff(cs: seq<Element>)
    ensures Blocks(cs).Failure? <==> exists i :: 0 <= i < |cs| && BadBlock(cs[i])
  {
    FoldFailsIff(BlockStep, map[], cs, BadBlock);
  }

  /** The predictions are keyed by every block's routeTag. */
  lemma {:induction false} BlocksKeys(cs: seq<Element>)
    requires Blocks(cs).Success?
    ensures Blocks(cs).value.Keys == AttrValues(cs, "routeTag")
    decreases |cs|
  {
    if cs != [] {
      var p, c := cs[..|cs| - 1], cs[|cs| - 1];
      assert cs == p + [c];
      BlocksKeys(p);
      AttrValuesSnoc(p, c, "routeTag");
    }
  }

  /** A routeTag holds the record of the last block with that routeTag. */
  lemma {:induction false} BlocksLatest(cs: seq<Element>, i: int, k: string)
    requires Blocks(cs).Success? && LastWithAttr(cs, i, "routeTag", k)
    ensures LineOf(cs[i].children).Success? && k in Blocks(cs).value
    ensures Blocks(cs).value[k] == LineValue(LineOf(cs[i].children).value)
    decreases |cs|
  {
    var p := cs[..|cs| - 1];
    if i < |cs| - 1 {
      assert LastWithAttr(p, i, "routeTag", k);
      BlocksLatest(p, i, k);
    }
  }

  /** With a route id, the result is the record of the last block with that
      routeTag, not wrapped in an outer dictionary; it fails when no block has it. */
  lemma PredictionsForRoute(tree: Element, routeId: Option<string>)
    requires Truthy(routeId) && Blocks(tree.children).Success?
    ensures Predictions(tree, routeId).Success? <==> routeId.value in AttrValues(tree.children, "routeTag")
    ensures Predictions(tree, routeId).Success? ==>
              exists i :: LastWithAttr(tree.children, i, "routeTag", routeId.value)
                          && LineOf(tree.children[i].children).Success?
                          && Predictions(tree, routeId).value == LineValue(LineOf(tree.children[i].children).value)
  {
    var cs := tree.children;
    BlocksKeys(cs);
    if Predictions(tree, routeId).Success? {
      var i := LastIndexWith(cs, "routeTag", routeId.value);
      BlocksLatest(cs, i, routeId.value);
    }
  }

  /** The last index whose attribute `name` is `v`, when there is one. */
  lemma {:induction false} LastIndexWith(cs: seq<Element>, name: string, v: string) returns (i: int)
    requires v in AttrValues(cs, name)
    ensures LastWithAttr(cs, i, name, v)
    decreases |cs|
  {
    var p, c := cs[..|cs| - 1], cs[|cs| - 1];
    if name in c.attrib && c.attrib[name] == v {
      i := |cs| - 1;
    } else {
      assert cs == p + [c];
      AttrValuesSnoc(p, c, name);
      i := LastIndexWith(p, name, v);
    }
  }
}
