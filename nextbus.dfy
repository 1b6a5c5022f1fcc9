/**
 * The NextBus feed client: the four translations from a parsed XML response
 * to the nested dictionaries and lists the client returns, and the `Agency`
 * object that caches an agency's route table.
 *
 * The HTTP request and the XML parser are one collaborator here, `fetch`:
 * given the request parameters it yields the root element of the parsed
 * response. Every translation is a spec function on that element; each loop
 * of the client is a method proved equal to it.
 */
module NextBus {
  import opened Wrappers
  import opened XmlTree
  import opened ChildLoop

  /** A value the client builds: a string, a boolean, a list or a dictionary keyed by strings. */
  datatype Value =
    | Str(s: string)
    | Bool(b: bool)
    | List(items: seq<Value>)
    | Dict(entries: map<string, Value>)

  /** What the client raises. */
  datatype Error =
    | KeyError(key: string)  // a missing attribute, an unknown boolean spelling, or a route absent from the predictions
    | IndexError             // a route configuration response with no route element
    | InvalidRoute           // a route id that is not in the agency's route table

  /** Query parameters of a request; a parameter whose value is `None` is passed as Python's `None`. */
  type Request = map<string, Option<string>>

  /** The response to a request, as the transport and the XML parser produce it. */
  type Fetch = Request -> Element

  /** `att[name]`: the attribute, or a `KeyError` naming it. */
  function Required(e: Element, name: string): Result<string, Error>
  {
    if name in e.attrib then Success(e.attrib[name]) else Failure(KeyError(name))
  }

  /** The lookup table that turns the feed's lowercase booleans into booleans. */
  function JavaTfToPythonTf(s: string): (r: Result<bool, Error>)
    ensures r.Success? <==> s == "true" || s == "false"
    ensures r.Success? ==> (r.value <==> s == "true")
    ensures r.Failure? ==> r.error == KeyError(s)
  {
    if s == "true" then Success(true)
    else if s == "false" then Success(false)
    else Failure(KeyError(s))
  }

  // ---------------------------------------------------------------------------
  // Agency list

  function AgencyListRequest(): Request
  {
    map["command" := Some("agencyList")]
  }

  function AgencyRecord(title: string, regionTitle: string): Value
  {
    Dict(map["title" := Str(title), "regionTitle" := Str(regionTitle)])
  }

  /** One turn of the agency loop: the record goes under the agency's tag, and
      a short title goes under the outer key "shortTitle". */
  function AgencyStep(agencies: map<string, Value>, agency: Element): Result<map<string, Value>, Error>
  {
    var title :- Required(agency, "title");
    var regionTitle :- Required(agency, "regionTitle");
    var tag :- Required(agency, "tag");
    var withRecord := agencies[tag := AgencyRecord(title, regionTitle)];
    if "shortTitle" in agency.attrib then Success(withRecord["shortTitle" := Str(agency.attrib["shortTitle"])])
    else Success(withRecord)
  }

  function Agencies(cs: seq<Element>): Result<map<string, Value>, Error>
  {
    Fold(AgencyStep, map[], cs)
  }

  method GetAgencies(fetch: Fetch) returns (r: Result<map<string, Value>, Error>)
    ensures r == Agencies(fetch(AgencyListRequest()).children)
  {
    var agencyTree := fetch(AgencyListRequest());
    var agencyDict: map<string, Value> := map[];
    for i := 0 to |agencyTree.children|
      invariant Agencies(agencyTree.children[..i]) == Success(agencyDict)
    {
      var agency := agencyTree.children[i];
      FoldNext(AgencyStep, map[], agencyTree.children, i, agencyDict);
      var title :- Required(agency, "title");
      var regionTitle :- Required(agency, "regionTitle");
      var tag :- Required(agency, "tag");
      agencyDict := agencyDict[tag := AgencyRecord(title, regionTitle)];
      if "shortTitle" in agency.attrib {
        agencyDict := agencyDict["shortTitle" := Str(agency.attrib["shortTitle"])];
      }
    }
    FoldAll(AgencyStep, map[], agencyTree.children);
    return Success(agencyDict);
  }

  // ---------------------------------------------------------------------------
  // Route list

  function RouteListRequest(agency: string): Request
  {
    map["a" := Some(agency), "command" := Some("routeList")]
  }

  function RouteStep(routes: map<string, string>, route: Element): Result<map<string, string>, Error>
  {
    var title :- Required(route, "title");
    var tag :- Required(route, "tag");
    Success(routes[tag := title])
  }

  function Routes(cs: seq<Element>): Result<map<string, string>, Error>
  {
    Fold(RouteStep, map[], cs)
  }

  // ---------------------------------------------------------------------------
  // Route configuration

  function RouteConfigRequest(agency: string, routeId: string): Request
  {
    map["a" := Some(agency), "command" := Some("routeConfig"), "r" := Some(routeId), "terse" := None]
  }

  /** The record of a `stop` child: lat, lon and title are required, stopId and shortTitle optional. */
  function StopRecord(c: Element): (r: Result<Value, Error>)
    ensures r.Success? <==> "lat" in c.attrib && "lon" in c.attrib && "title" in c.attrib
    ensures "lat" !in c.attrib ==> r == Failure(KeyError("lat"))
    ensures "lat" in c.attrib && "lon" !in c.attrib ==> r == Failure(KeyError("lon"))
    ensures "lat" in c.attrib && "lon" in c.attrib && "title" !in c.attrib ==> r == Failure(KeyError("title"))
    ensures r.Success? ==> r.value.Dict?
    ensures r.Success? ==> r.value.entries.Keys
                           == {"lat", "lon", "title"}
                            + (if "stopId" in c.attrib then {"stopId"} else {})
                            + (if "shortTitle" in c.attrib then {"shortTitle"} else {})
    ensures r.Success? ==> forall name :: name in r.value.entries ==> r.value.entries[name] == Str(c.attrib[name])
  {
    var lat :- Required(c, "lat");
    var lon :- Required(c, "lon");
    var title :- Required(c, "title");
    var required := map["lat" := Str(lat), "lon" := Str(lon), "title" := Str(title)];
    var withStopId := if "stopId" in c.attrib then required["stopId" := Str(c.attrib["stopId"])] else required;
    var withShortTitle := if "shortTitle" in c.attrib then withStopId["shortTitle" := Str(c.attrib["shortTitle"])] else withStopId;
    Success(Dict(withShortTitle))
  }

  function StopTagStep(tags: seq<Value>, stop: Element): Result<seq<Value>, Error>
  {
    var tag :- Required(stop, "tag");
    Success(tags + [Str(tag)])
  }

  /** The stop tags of a `direction` child, one per child element. */
  function StopTags(cs: seq<Element>): Result<seq<Value>, Error>
  {
    Fold(StopTagStep, [], cs)
  }

  /** The record of a `direction` child: title and the list of stop tags, and name when present. */
  function DirectionRecord(c: Element): Result<Value, Error>
  {
    var title :- Required(c, "title");
    var stops :- StopTags(c.children);
    var required := map["title" := Str(title), "stops" := List(stops)];
    var withName := if "name" in c.attrib then required["name" := Str(c.attrib["name"])] else required;
    Success(Dict(withName))
  }

  /** The two dictionaries of a route configuration the loop fills in. */
  datatype RouteCfg = RouteCfg(stops: map<string, Value>, directions: map<string, Value>)

  /** One turn of the route configuration loop; children other than stops and directions are skipped. */
  function RouteCfgStep(cfg: RouteCfg, c: Element): Result<RouteCfg, Error>
  {
    if c.tag == "stop" then (
      var stop :- StopRecord(c);
      var tag :- Required(c, "tag");
      Success(cfg.(stops := cfg.stops[tag := stop]))
    ) else if c.tag == "direction" then (
      var direction :- DirectionRecord(c);
      var tag :- Required(c, "tag");
      Success(cfg.(directions := cfg.directions[tag := direction]))
    ) else Success(cfg)
  }

  function RouteCfgOf(cs: seq<Element>): Result<RouteCfg, Error>
  {
    Fold(RouteCfgStep, RouteCfg(map[], map[]), cs)
  }

  function RouteCfgValue(cfg: RouteCfg): Value
  {
    Dict(map["stops" := Dict(cfg.stops), "directions" := Dict(cfg.directions), "paths" := Dict(map[])])
  }

  /** The route configuration read from the root's first child. */
  function RouteConfig(tree: Element): (r: Result<Value, Error>)
    ensures tree.children == [] ==> r == Failure(IndexError)
    ensures tree.children != [] && tree.children[0].children == []
            ==> r == Success(Dict(map["stops" := Dict(map[]), "directions" := Dict(map[]), "paths" := Dict(map[])]))
    ensures r.Success? ==> r.value.Dict? && r.value.entries.Keys == {"stops", "directions", "paths"}
    ensures r.Success? ==> r.value.entries["paths"] == Dict(map[])
  {
    if |tree.children| == 0 then Failure(IndexError)
    else
      var cfg :- RouteCfgOf(tree.children[0].children);
      Success(RouteCfgValue(cfg))
  }

  // ---------------------------------------------------------------------------
  // Predictions

  /** Python truthiness of the optional route id: neither `None` nor the empty string. */
  predicate Truthy(routeId: Option<string>)
  {
    routeId.Some? && routeId.value != ""
  }

  function PredictionsRequest(agency: string, stopId: string, routeId: Option<string>): (r: Request)
    ensures "routeTag" in r <==> Truthy(routeId)
    ensures "routeTag" in r ==> r["routeTag"] == routeId
    ensures r.Keys - {"routeTag"} == {"a", "command", "stopId"}
    ensures r["a"] == Some(agency) && r["command"] == Some("predictions") && r["stopId"] == Some(stopId)
  {
    var reqParams := map["a" := Some(agency), "command" := Some("predictions"), "stopId" := Some(stopId)];
    if Truthy(routeId) then reqParams["routeTag" := routeId] else reqParams
  }

  predicate IsBoolText(s: string)
  {
    s == "true" || s == "false"
  }

  /** `p_dict[name] = JAVA_TF_TO_PYTHON_TF[p_att[name]]` when the attribute is present. */
  function OverrideFlag(pDict: map<string, Value>, p: Element, name: string): (r: Result<map<string, Value>, Error>)
    ensures r.Success? <==> (name in p.attrib ==> IsBoolText(p.attrib[name]))
    ensures r.Failure? ==> r.error == KeyError(p.attrib[name])
    ensures r.Success? ==> r.value.Keys == pDict.Keys + (if name in p.attrib then {name} else {})
    ensures r.Success? && name in p.attrib ==> r.value[name] == Bool(p.attrib[name] == "true")
    ensures r.Success? ==> forall k :: k in pDict && k != name ==> r.value[k] == pDict[k]
    ensures r.Success? && name !in p.attrib ==> r.value == pDict
  {
    if name in p.attrib then
      var flag :- JavaTfToPythonTf(p.attrib[name]);
      Success(pDict[name := Bool(flag)])
    else Success(pDict)
  }

  /** The record of one prediction element, before the optional flags are read. */
  function PredictionDefaults(epochTime: string, seconds: string, minutes: string, isDeparture: bool,
                              dirTag: string, tripTag: string): (r: map<string, Value>)
    ensures r.Keys == {"epochTime", "seconds", "minutes", "isDeparture", "dirTag", "tripTag",
                       "affectedByLayover", "isScheduleBased", "isDelayed"}
    ensures r["epochTime"] == Str(epochTime) && r["seconds"] == Str(seconds) && r["minutes"] == Str(minutes)
    ensures r["dirTag"] == Str(dirTag) && r["tripTag"] == Str(tripTag)
    ensures r["isDeparture"] == Bool(isDeparture)
    ensures r["affectedByLayover"] == r["isScheduleBased"] == r["isDelayed"] == Bool(false)
  {
    map[
      "epochTime" := Str(epochTime), "seconds" := Str(seconds), "minutes" := Str(minutes),
      "isDeparture" := Bool(isDeparture), "dirTag" := Str(dirTag), "tripTag" := Str(tripTag),
      "affectedByLayover" := Bool(false), "isScheduleBased" := Bool(false), "isDelayed" := Bool(false)]
  }

  /** The record of one prediction element with every optional flag at its
      default: the required attributes read in the order the source reads them. */
  function PredictionBase(p: Element): (r: Result<map<string, Value>, Error>)
    ensures r.Success? <==>
              && "epochTime" in p.attrib && "seconds" in p.attrib && "minutes" in p.attrib
              && "isDeparture" in p.attrib && IsBoolText(p.attrib["isDeparture"])
              && "dirTag" in p.attrib && "tripTag" in p.attrib
    ensures r.Success? ==>
              r.value == PredictionDefaults(p.attrib["epochTime"], p.attrib["seconds"], p.attrib["minutes"],
                                            p.attrib["isDeparture"] == "true", p.attrib["dirTag"], p.attrib["tripTag"])
  {
    var epochTime :- Required(p, "epochTime");
    var seconds :- Required(p, "seconds");
    var minutes :- Required(p, "minutes");
    var departure :- Required(p, "isDeparture");
    var isDeparture :- JavaTfToPythonTf(departure);
    var dirTag :- Required(p, "dirTag");
    var tripTag :- Required(p, "tripTag");
    Success(PredictionDefaults(epochTime, seconds, minutes, isDeparture, dirTag, tripTag))
  }

  /** The record of one prediction element. */
  function PredictionRecord(p: Element): Result<Value, Error>
  {
    var pDict :- PredictionBase(p);
    var pDict1 :- OverrideFlag(pDict, p, "affectedByLayover");
    var pDict2 :- OverrideFlag(pDict1, p, "isScheduleBased");
    var pDict3 :- OverrideFlag(pDict2, p, "isDelayed");
    Success(Dict(pDict3))
  }

  function PredictionStep(preds: seq<Value>, p: Element): Result<seq<Value>, Error>
  {
    var rec :- PredictionRecord(p);
    Success(preds + [rec])
  }

  /** The prediction records of a `direction` element, one per child. */
  function PredictionList(cs: seq<Element>): Result<seq<Value>, Error>
  {
    Fold(PredictionStep, [], cs)
  }

  function MessageRecord(priority: string, text: string): Value
  {
    Dict(map["priority" := Str(priority), "text" := Str(text)])
  }

  /**
   * The dictionary of one route block while it is being built. The list under
   * the key "messages" is kept apart from the other keys because the loop
   * appends to whatever list that key holds.
   */
  datatype Line = Line(entries: map<string, Value>, messages: seq<Value>)

  const EmptyLine := Line(map["directions" := Dict(map[])], [])

  function LineValue(line: Line): Value
  {
    Dict(line.entries["messages" := List(line.messages)])
  }

  /** One turn of a route block's loop: a direction's predictions go under its
      title, a message is appended to the messages. */
  function LineStep(line: Line, info: Element): Result<Line, Error>
  {
    if info.tag == "direction" then (
      var preds :- PredictionList(info.children);
      var title :- Required(info, "title");
      if title == "messages" then Success(line.(messages := preds))
      else Success(line.(entries := line.entries[title := List(preds)]))
    ) else if info.tag == "message" then (
      var priority :- Required(info, "priority");
      var text :- Required(info, "text");
      Success(line.(messages := line.messages + [MessageRecord(priority, text)]))
    ) else Success(line)
  }

  function LineOf(cs: seq<Element>): Result<Line, Error>
  {
    Fold(LineStep, EmptyLine, cs)
  }

  /** One turn of the loop over route blocks: the block goes under its routeTag. */
  function BlockStep(blocks: map<string, Value>, block: Element): Result<map<string, Value>, Error>
  {
    var line :- LineOf(block.children);
    var routeTag :- Required(block, "routeTag");
    Success(blocks[routeTag := LineValue(line)])
  }

  function Blocks(cs: seq<Element>): Result<map<string, Value>, Error>
  {
    Fold(BlockStep, map[], cs)
  }

  /** The predictions of a response: all blocks, or only the requested route's. */
  function Predictions(tree: Element, routeId: Option<string>): (r: Result<Value, Error>)
    ensures Blocks(tree.children).Failure? ==> r == Failure(Blocks(tree.children).error)
    ensures Blocks(tree.children).Success? && !Truthy(routeId) ==> r == Success(Dict(Blocks(tree.children).value))
    ensures Blocks(tree.children).Success? && Truthy(routeId) ==>
              if routeId.value in Blocks(tree.children).value
              then r == Success(Blocks(tree.children).value[routeId.value])
              else r == Failure(KeyError(routeId.value))
  {
    var blocks :- Blocks(tree.children);
    if !Truthy(routeId) then Success(Dict(blocks))
    else if routeId.value in blocks then Success(blocks[routeId.value])
    else Failure(KeyError(routeId.value))
  }

  // ---------------------------------------------------------------------------
  // The loops that build route configurations and predictions

  method BuildStop(c: Element) returns (r: Result<Value, Error>)
    ensures r == StopRecord(c)
  {
    var lat :- Required(c, "lat");
    var lon :- Required(c, "lon");
    var title :- Required(c, "title");
    var stopData := map["lat" := Str(lat), "lon" := Str(lon), "title" := Str(title)];
    if "stopId" in c.attrib {
      stopData := stopData["stopId" := Str(c.attrib["stopId"])];
    }
    if "shortTitle" in c.attrib {
      stopData := stopData["shortTitle" := Str(c.attrib["shortTitle"])];
    }
    return Success(Dict(stopData));
  }

  method BuildDirection(c: Element) returns (r: Result<Value, Error>)
    ensures r == DirectionRecord(c)
  {
    var title :- Required(c, "title");
    var stops: seq<Value> := [];
    for j := 0 to |c.children|
      invariant StopTags(c.children[..j]) == Success(stops)
    {
      FoldNext(StopTagStep, [], c.children, j, stops);
      var tag :- Required(c.children[j], "tag");
      stops := stops + [Str(tag)];
    }
    FoldAll(StopTagStep, [], c.children);
    var directionData := map["title" := Str(title), "stops" := List(stops)];
    if "name" in c.attrib {
      directionData := directionData["name" := Str(c.attrib["name"])];
    }
    return Success(Dict(directionData));
  }

  method BuildPrediction(p: Element) returns (r: Result<Value, Error>)
    ensures r == PredictionRecord(p)
  {
    var epochTime :- Required(p, "epochTime");
    var seconds :- Required(p, "seconds");
    var minutes :- Required(p, "minutes");
    var departure :- Required(p, "isDeparture");
    var isDeparture :- JavaTfToPythonTf(departure);
    var dirTag :- Required(p, "dirTag");
    var tripTag :- Required(p, "tripTag");
    var pDict := PredictionDefaults(epochTime, seconds, minutes, isDeparture, dirTag, tripTag);
    if "affectedByLayover" in p.attrib {
      var flag :- JavaTfToPythonTf(p.attrib["affectedByLayover"]);
      pDict := pDict["affectedByLayover" := Bool(flag)];
    }
    if "isScheduleBased" in p.attrib {
      var flag :- JavaTfToPythonTf(p.attrib["isScheduleBased"]);
      pDict := pDict["isScheduleBased" := Bool(flag)];
    }
    if "isDelayed" in p.attrib {
      var flag :- JavaTfToPythonTf(p.attrib["isDelayed"]);
      pDict := pDict["isDelayed" := Bool(flag)];
    }
    return Success(Dict(pDict));
  }

  method BuildPredictionList(direction: Element) returns (r: Result<seq<Value>, Error>)
    ensures r == PredictionList(direction.children)
  {
    var predDirList: seq<Value> := [];
    for k := 0 to |direction.children|
      invariant PredictionList(direction.children[..k]) == Success(predDirList)
    {
      FoldNext(PredictionStep, [], direction.children, k, predDirList);
      var pDict :- BuildPrediction(direction.children[k]);
      predDirList := predDirList + [pDict];
    }
    FoldAll(PredictionStep, [], direction.children);
    return Success(predDirList);
  }

  method BuildLine(block: Element) returns (r: Result<Line, Error>)
    ensures r == LineOf(block.children)
  {
    var entries := EmptyLine.entries;
    var messages: seq<Value> := [];
    for j := 0 to |block.children|
      invariant LineOf(block.children[..j]) == Success(Line(entries, messages))
    {
      var predInfo := block.children[j];
      FoldNext(LineStep, EmptyLine, block.children, j, Line(entries, messages));
      if predInfo.tag == "direction" {
        var predDirList :- BuildPredictionList(predInfo);
        var title :- Required(predInfo, "title");
        if title == "messages" {
          messages := predDirList;
        } else {
          entries := entries[title := List(predDirList)];
        }
      } else if predInfo.tag == "message" {
        var priority :- Required(predInfo, "priority");
        var text :- Required(predInfo, "text");
        messages := messages + [MessageRecord(priority, text)];
      }
    }
    FoldAll(LineStep, EmptyLine, block.children);
    return Success(Line(entries, messages));
  }

  // ---------------------------------------------------------------------------
  // The agency object

  class Agency {
    var agency: string
    var routes: map<string, string>

    /** Only the assignment of the agency id. `Create` models `Agency(...)`,
        which fetches the route table before any caller sees the object, so
        Python never shows this empty-routes state. */
    constructor (agency: string)
      ensures this.agency == agency && routes == map[]
    {
      this.agency := agency;
      routes := map[];
    }

    /** Construction: set the agency id, then fetch and cache the route table;
        a failing fetch raises and no object results. */
    static method Create(agency: string, fetch: Fetch) returns (r: Result<Agency, Error>)
      ensures r.Success? <==> Routes(fetch(RouteListRequest(agency)).children).Success?
      ensures r.Success? ==> fresh(r.value) && r.value.agency == agency
                             && r.value.routes == Routes(fetch(RouteListRequest(agency)).children).value
      ensures r.Failure? ==> r.error == Routes(fetch(RouteListRequest(agency)).children).error
    {
      var a := new Agency(agency);
      var routes :- a.GetRoutes(fetch);
      a.routes := routes;
      return Success(a);
    }

    method GetRoutes(fetch: Fetch) returns (r: Result<map<string, string>, Error>)
      ensures r == Routes(fetch(RouteListRequest(agency)).children)
    {
      var routesTree := fetch(RouteListRequest(agency));
      var routesDict: map<string, string> := map[];
      for i := 0 to |routesTree.children|
        invariant Routes(routesTree.children[..i]) == Success(routesDict)
      {
        var route := routesTree.children[i];
        FoldNext(RouteStep, map[], routesTree.children, i, routesDict);
        var title :- Required(route, "title");
        var tag :- Required(route, "tag");
        routesDict := routesDict[tag := title];
      }
      FoldAll(RouteStep, map[], routesTree.children);
      return Success(routesDict);
    }

    /** The route configuration; an unknown route id fails before any request is made. */
    method GetRouteConfig(routeId: string, fetch: Fetch) returns (r: Result<Value, Error>)
      ensures routeId !in routes ==> r == Failure(InvalidRoute)
      ensures routeId in routes ==> r == RouteConfig(fetch(RouteConfigRequest(agency, routeId)))
    {
      if routeId !in routes {
        return Failure(InvalidRoute);
      }
      var routeCfgTree := fetch(RouteConfigRequest(agency, routeId));
      if |routeCfgTree.children| == 0 {
        return Failure(IndexError);
      }
      var routeCfg := routeCfgTree.children[0];
      var stops: map<string, Value> := map[];
      var directions: map<string, Value> := map[];
      for i := 0 to |routeCfg.children|
        invariant RouteCfgOf(routeCfg.children[..i]) == Success(RouteCfg(stops, directions))
      {
        var c := routeCfg.children[i];
        FoldNext(RouteCfgStep, RouteCfg(map[], map[]), routeCfg.children, i, RouteCfg(stops, directions));
        if c.tag == "stop" {
          var stopData :- BuildStop(c);
          var tag :- Required(c, "tag");
          stops := stops[tag := stopData];
        } else if c.tag == "direction" {
          var directionData :- BuildDirection(c);
          var tag :- Required(c, "tag");
          directions := directions[tag := directionData];
        }
      }
      FoldAll(RouteCfgStep, RouteCfg(map[], map[]), routeCfg.children);
      return Success(RouteCfgValue(RouteCfg(stops, directions)));
    }

    /** Predictions at a stop, for every route or for the given one. */
    method GetPredictions(stopId: string, routeId: Option<string>, fetch: Fetch) returns (r: Result<Value, Error>)
      ensures r == Predictions(fetch(PredictionsRequest(agency, stopId, routeId)), routeId)
    {
      var reqParams: Request := map["a" := Some(agency), "command" := Some("predictions"), "stopId" := Some(stopId)];
      if Truthy(routeId) {
        reqParams := reqParams["routeTag" := routeId];
      }
      var predictionsTree := fetch(reqParams);
      var predictionsDict: map<string, Value> := map[];
      for i := 0 to |predictionsTree.children|
        invariant Blocks(predictionsTree.children[..i]) == Success(predictionsDict)
      {
        var predictions := predictionsTree.children[i];
        FoldNext(BlockStep, map[], predictionsTree.children, i, predictionsDict);
        var predLine :- BuildLine(predictions);
        var routeTag :- Required(predictions, "routeTag");
        predictionsDict := predictionsDict[routeTag := LineValue(predLine)];
      }
      FoldAll(BlockStep, map[], predictionsTree.children);
      if !Truthy(routeId) {
        return Success(Dict(predictionsDict));
      }
      if routeId.value !in predictionsDict {
        return Failure(KeyError(routeId.value));
      }
      return Success(predictionsDict[routeId.value]);
    }
  }
}
