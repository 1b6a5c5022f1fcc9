# NextBus feed client, modelled in Dafny

This project models `nextbus.py`, a small client for the NextBus public XML
feed. The client sends a query to the feed, parses the XML response and turns
it into nested dictionaries and lists. The model covers:

- the boolean lookup table `JAVA_TF_TO_PYTHON_TF`;
- `get_agencies`, which builds the agency list;
- the `Agency` object: its constructor, which fetches and caches the route
  table, then `get_routes`, `get_route_config` and `get_predictions`.

How the model is built:

- **Transport and parser.** The HTTP request and the XML parser are one
  collaborator, `fetch: Request -> Element`. It takes the query parameters the
  client passes and returns the root element of the parsed response. An
  `Element` has a tag, an attribute map and a list of children.
- **Output values.** The dictionaries and lists the client returns are values
  of the datatype `Value` (`Str`, `Bool`, `List`, `Dict`). That keeps the keys
  and values the client builds, including where a later key overwrites an
  earlier one.
- **Errors.** What the client raises is an `Error`:
  - `KeyError(key)`: a missing attribute, an unknown boolean spelling, or a
    requested route missing from the predictions;
  - `IndexError`: a route configuration response with no route element;
  - `InvalidRoute`: the exception `get_route_config` raises for a route id that
    is not in the cached table.
- **Loops.** Every `for` loop of the client is a `method` with a loop. Each one
  is proved equal to a spec function. The spec functions are all instances of
  one fold, `ChildLoop.Fold`, which runs a step over the children in document
  order and stops at the first error.
- **Properties.** `NextBusProperties` proves what those spec functions
  guarantee:
  - exactly when a translation fails;
  - which keys each dictionary has;
  - which element wins when two share a key (the last one);
  - that lists keep document order;
  - the defaults of the optional prediction flags.

Modules:

- `wrappers.dfy`: `Option` and `Result`.
- `xml_tree.dfy`: the parsed element tree, plus filters over children.
- `child_loop.dfy`: the fold every loop follows, with its lemmas.
- `nextbus.dfy`: the client itself, as spec functions, the loop methods and the
  `Agency` class.
- `nextbus_properties.dfy`: the lemmas.

## Where the code and its docstrings differ

The model follows the code in each of these cases:

- `get_agencies` writes an agency's short title under the *outer* key
  `"shortTitle"` (nextbus.py:29-30). It does not add it to the agency's own
  record, so records only ever hold `title` and `regionTitle`. A later agency
  with a short title overwrites that key. See `AgenciesKeys`, `AgenciesLatest`
  and `AgenciesShortTitle`.
- `get_route_config` reads only the root's first child (nextbus.py:102).
  - A response with no child raises `IndexError`.
  - An empty route element gives empty `stops` and `directions`.
  - `paths` is always empty.
- A direction's stop list takes the `tag` of *every* child of the direction,
  whatever that child's element name is (nextbus.py:125-126).
- In `get_predictions`, a direction's prediction list is stored in the route
  block's dictionary under the direction's *title* (nextbus.py:236). It does
  not go under `directions`, which stays an empty dictionary
  (`LineDirectionsEntryEmpty`).
  - A direction titled `"messages"` replaces the messages list (nextbus.py:236).
  - Later message elements are appended to that replacement list
    (`LineMessagesAfterTakeover`).
- When a route id is given and no route block has that routeTag,
  `get_predictions` raises `KeyError` (nextbus.py:249). Otherwise it returns
  that block's dictionary without the outer dictionary.
- Whether a route id counts as given is decided by Python truthiness
  (nextbus.py:187, 246), so the empty string counts as no route id (`Truthy`).

## Model

| member | source | states |
|---|---|---|
| NextBus.JavaTfToPythonTf | nextbus.py:6 | The lookup succeeds exactly on "true" and "false". It yields true exactly for "true". Any other text is a KeyError naming that text. |
| NextBus.GetAgencies | nextbus.py:8-32 | It sends only `command=agencyList`. Its loop returns what `Agencies` gives for the children of the response, including the first error. |
| NextBusProperties.AgenciesFailIff | nextbus.py:23-27 | The agency list fails exactly when some agency lacks title, regionTitle or tag. |
| NextBusProperties.AgenciesKeys | nextbus.py:23-32 | The keys are the agencies' tags, plus the literal key "shortTitle" exactly when some agency has a short title. |
| NextBusProperties.AgenciesLatest | nextbus.py:26-27 | A tag holds the `{title, regionTitle}` record of the last agency with that tag, and that record has no other key. For the tag "shortTitle" this holds when no agency from that one on has a short title. |
| NextBusProperties.AgenciesShortTitle | nextbus.py:29-30 | The key "shortTitle" holds the short title of the last agency that has one, unless a later agency is tagged "shortTitle". |
| NextBus.Agency.constructor | nextbus.py:47 | The object records its agency id and starts with an empty route table. |
| NextBus.Agency.Create | nextbus.py:40-48 | Construction succeeds exactly when the route list translates. The new object then holds the agency id and that route table. Otherwise construction raises the route list's error. |
| NextBus.Agency.GetRoutes | nextbus.py:50-69 | It sends `a=<agency>, command=routeList`. Its loop returns what `Routes` gives for the response's children. |
| NextBusProperties.RoutesFailIff | nextbus.py:64-67 | The route list fails exactly when some route lacks title or tag. |
| NextBusProperties.RoutesKeys | nextbus.py:64-69 | The route table's keys are exactly the routes' tags. |
| NextBusProperties.RoutesLatest | nextbus.py:67 | Each route id maps to the title of the last route with that tag. |
| NextBusProperties.RoutesExample | nextbus.py:64-69 | Two routes R1 "First" and R2 "Second" give the table `{R1: First, R2: Second}`. |
| NextBus.Agency.GetRouteConfig | nextbus.py:92-135 | A route id missing from the cached table fails with InvalidRoute. Otherwise it sends `a, command=routeConfig, r, terse=None` and returns `RouteConfig` of the response. It changes neither field. |
| NextBus.RouteConfig | nextbus.py:99-104 | A response with no child raises IndexError. An empty route gives three empty dictionaries. On success the keys are exactly stops, directions and paths, and paths is empty. |
| NextBus.StopRecord | nextbus.py:107-116 | A stop record exists exactly when lat, lon and title are present. The KeyError names the first missing one, in that order. The keys are lat, lon, title, plus stopId and shortTitle exactly when present. Every value is the attribute's text. |
| NextBus.BuildStop | nextbus.py:107-116 | It builds what `StopRecord` specifies. |
| NextBus.BuildDirection | nextbus.py:121-130 | Its loop over the direction's children builds what `DirectionRecord` specifies. |
| NextBusProperties.StopTagsInOrder | nextbus.py:125-126 | The stop list has one entry per child of the direction: that child's tag, in document order. |
| NextBusProperties.StopTagsFailIff | nextbus.py:125-126 | The stop list fails exactly when some child of the direction lacks a tag. |
| NextBusProperties.DirectionRecordSpec | nextbus.py:121-130 | A direction record exists exactly when the title and every child's tag are present. Its keys are title and stops, plus name exactly when present. The values are the title, the children's tags in order, and the name. |
| NextBusProperties.RouteCfgFailIff | nextbus.py:104-133 | The loop fails exactly in two cases. A stop lacks lat, lon, title or tag. Or a direction lacks title or tag, or has a child without a tag. |
| NextBusProperties.RouteCfgKeys | nextbus.py:104-133 | The keys of stops are the tags of the stop children. The keys of directions are the tags of the direction children. |
| NextBusProperties.RouteCfgLatestStop | nextbus.py:107-119 | A stop tag holds the record of the last stop child with that tag. |
| NextBusProperties.RouteCfgLatestDirection | nextbus.py:121-133 | A direction tag holds the record of the last direction child with that tag. |
| NextBusProperties.RouteCfgIgnoresOthers | nextbus.py:104-133 | Children that are neither stops nor directions change neither the result nor the error. |
| NextBus.PredictionsRequest | nextbus.py:183-188 | The query holds a, command=predictions and stopId. It holds routeTag exactly when the route id is truthy, and then the value is that id. |
| NextBus.OverrideFlag | nextbus.py:222-232 | An absent flag leaves the record unchanged. A present flag must read "true" or "false", otherwise KeyError of its text. A present flag overwrites only its own key, with the converted boolean. |
| NextBus.PredictionBase | nextbus.py:210-218 | It succeeds exactly when epochTime, seconds, minutes, dirTag and tripTag are present and isDeparture is "true" or "false". It then holds the strings, the converted isDeparture and three false flags. |
| NextBus.BuildPrediction | nextbus.py:208-232 | It builds what `PredictionRecord` specifies, reading the attributes in the order the source does. |
| NextBusProperties.PredictionRecordFailIff | nextbus.py:210-232 | A prediction record exists exactly when the required attributes are present and every boolean attribute present reads "true" or "false". |
| NextBusProperties.PredictionRecordKeys | nextbus.py:210-232 | Every prediction record has exactly the nine keys, whichever optional flags are present. |
| NextBusProperties.PredictionRecordDeparture | nextbus.py:213 | isDeparture is the converted attribute. |
| NextBusProperties.PredictionRecordStrings | nextbus.py:210-215 | epochTime, seconds, minutes, dirTag and tripTag are copied verbatim. |
| NextBusProperties.PredictionRecordFlags | nextbus.py:216-232 | Each of affectedByLayover, isScheduleBased and isDelayed is false when absent and the converted attribute when present. |
| NextBus.BuildPredictionList | nextbus.py:205-234 | Its loop over a direction's children builds what `PredictionList` specifies. |
| NextBusProperties.PredictionListInOrder | nextbus.py:207-234 | A direction's list has one prediction record per child, in document order. |
| NextBusProperties.PredictionListFailIff | nextbus.py:207-234 | The list fails exactly when some child's record fails. |
| NextBus.BuildLine | nextbus.py:198-241 | Its loop over a route block's children builds what `LineOf` specifies. |
| NextBusProperties.LineMessagesInOrder | nextbus.py:238-241 | With no direction titled "messages", the messages are the block's message children as `{priority, text}` records, in document order. Each message has both attributes. |
| NextBusProperties.LineMessagesAfterTakeover | nextbus.py:236-241 | After the last direction titled "messages", the messages are that direction's predictions followed by the records of the later message children. |
| NextBusProperties.LineDirectionsEntryEmpty | nextbus.py:198-236 | Unless a direction is titled "directions", the block's "directions" entry stays the empty dictionary. |
| NextBusProperties.LineKeys | nextbus.py:198-236 | Apart from "messages", the block's keys are "directions" and the titles of its direction children. |
| NextBusProperties.LineValueKeys | nextbus.py:198-241 | The block dictionary's keys are exactly directions, messages and every direction title. |
| NextBusProperties.LineLatestDirection | nextbus.py:204-236 | A direction title other than "messages" holds the predictions of the last direction with that title. |
| NextBusProperties.LineFailIff | nextbus.py:201-241 | A route block fails exactly when one of its children is a direction whose predictions fail or that lacks a title, or a message that lacks priority or text. |
| NextBusProperties.BlocksFailIff | nextbus.py:197-243 | The predictions fail exactly when some route block fails or lacks a routeTag. |
| NextBusProperties.BlocksKeys | nextbus.py:197-243 | The predictions dictionary is keyed by exactly the blocks' routeTags. |
| NextBusProperties.BlocksLatest | nextbus.py:197-243 | A routeTag holds the dictionary of the last block with that routeTag. |
| NextBus.Predictions | nextbus.py:243-249 | An error in any block is the result. Without a truthy route id the result is the whole dictionary. With one, it is that route's block, or KeyError of the id. |
| NextBusProperties.PredictionsForRoute | nextbus.py:243-249 | With a truthy route id the result exists exactly when some block carries that routeTag, and it is the dictionary of the last such block. |
| NextBus.Agency.GetPredictions | nextbus.py:137-249 | It sends `PredictionsRequest` and its three nested loops return `Predictions` of the response. It changes neither field. |

## Left out

- Transport: the network, HTTP status codes, transport exceptions and the
  response text are not modelled. `fetch` stands for request plus parse, and
  the model does not say which element it returns.
- XML parsing: malformed XML, the parser's own errors, element text and tails
  are not modelled. The client never reads them.
- The query sent by `get_route_config` keeps `terse` with the value `None`, as
  the client writes it. Whatever the HTTP library then does with that parameter
  belongs to `fetch`.
- Arguments: `route_id` is modelled as `None` or a string. Other Python values
  and their truthiness are not.
- Exceptions: the message text of the exception `get_route_config` raises is
  not modelled; it is the error `InvalidRoute`.
- Aliasing: the lists the client returns are modelled as values. When a
  direction is titled "messages", nextbus.py:236 makes the block's "messages"
  key and the local `pred_dir_list` name one list object. The next direction
  rebinds `pred_dir_list`, so the only reference left is the block's own key,
  and later messages are appended to that list. The sharing cannot be seen in
  the result, and value semantics give the same output.
- Key order: Python dictionaries keep the order in which keys were first
  inserted (agencies tagged B, A, B give the keys B, A). A Dafny `map` has no
  order, so the order of keys in the dictionaries the client returns is not
  modelled. The client itself never relies on it.
- NextBus.Agency.Create: `__init__` is a static method that returns a
  `Result`, because a Dafny constructor cannot fail. The plain constructor
  models only the assignment of the agency id. A failing construction yields no
  object, as the Python raise does.
- `BASE_URL` and the `requests` call are not modelled. The model checks only
  that each operation sends the right query parameters.
