# provider-tools, modelled in Dafny

This project models the deterministic core of the GAIA-X 4 PLC-AAD provider
tools. That core is the set of scripts that turn simulation assets
(OpenDRIVE maps, OpenSCENARIO scenarios, 3D models) into self-descriptions
for the ENVITED marketplace. It models the following parts and proves their
properties:

- **JSON-LD claim composer** (`JsonLdCreator`). It walks the SHACL shapes
  of an ontology alongside the extracted metadata. It builds the claim
  header, one group per node shape found in the metadata, and one typed
  value per literal property. Defaults are synthesised for required
  literals that are missing.
- **OpenSCENARIO tag rules** (`XoscTags`): configuration lookup, tag data
  and its emptiness, list-to-tag reduction, the road-user taxonomy,
  time-of-day buckets, tag search and the header fillers.
- **SHACL generator** (`OntologyCreator`):
  - camel-casing and the special-character test;
  - the frequency mapping and data-type handling;
  - property creation on a class holding the graph as a list of triples;
  - shape assembly and the `sh:in` line fix-up over an array of lines.
- **Bounding boxes over reals**:
  - `TrimToBox`: the `Box2D` class and the road-removal loop;
  - `CalcBox`: the `calcBox` class;
  - `RoutingCreator`: re-projection, bounding box and GeoJSON structure.
- **XML/JSON reduction**: `AssetReducer` (XML to dict) and
  `XodrReducerIo` (dict to XML).
- **File, manifest and pipeline strings**: `StructureCreator`,
  `AssetExtraction` and `UrlUtils`.
- **Small pure pieces of the extractors**: `OdrExtract` (OpenDRIVE) and
  `Model3dExtract` (3D models).

Python built-ins the core relies on are modelled once, in helper modules:
- `PyStr`: `in`, `replace`, `split`, `join`, `lower`, `int`, `float`,
  `zfill` and sorting;
- `PyPath`: `pathlib` names and suffixes;
- `ODict`: insertion-ordered dicts, where `d[k] = v` keeps an existing
  key in place;
- `JsonValue`: JSON values with Python's `in`, indexing and iteration,
  raising `TypeError` or `KeyError` as `Err`;
- `XmlTree`: element trees as values;
- `Scans`: first match, filter and collect over sequences.

Python exceptions and `sys.exit` are results (`Result<T>` with a `PyError`
naming the exception). Loops that fill dicts and lists are methods with
loop invariants, each proved equal to a specification function, and lemmas
about those functions state what the scripts promise. Source paths below
are relative to the repository root.

## Model

| member | source | states |
|---|---|---|
| JsonLdCreator.CheckValueType | jsonLD_creator/main.py:68-95 | unknown datatypes give None; a string result is the text itself and only for a `str` datatype; an int or float result is the parsed text |
| JsonLdCreator.DefaultIsZero | jsonLD_creator/main.py:29-39 | every default text of the datatype table converts to the zero of its kind: '' for strings, 0, 0.0, the date text, and None for booleans (their type `bool` is not handled) |
| JsonLdCreator.IntegerValueRoundTrip | jsonLD_creator/main.py:72-76 | for the three integer datatypes, `check_value_type(str(n))` gives back `n` |
| JsonLdCreator.IsRequired | jsonLD_creator/main.py:107-112 | without `sh:minCount` a property is optional; the call raises exactly when minCount is not an integer text |
| JsonLdCreator.IsList | jsonLD_creator/main.py:114-119 | without `sh:maxCount` a property is a list; the call raises exactly when maxCount is not an integer text |
| JsonLdCreator.CountsClassify | jsonLD_creator/main.py:107-119 | with counts written as integers: required iff minCount >= 1, list iff maxCount > 1 |
| JsonLdCreator.ReplaceNamespaceNone | jsonLD_creator/main.py:98-102 | a string containing none of the namespaces is returned unchanged |
| JsonLdCreator.ReplaceNamespaceCompacts | jsonLD_creator/main.py:98-102 | when no earlier table entry's namespace occurs in `ns + local`, the result is `prefix:` followed by `local` with every further occurrence of `ns` also replaced by `prefix:` |
| JsonLdCreator.ReplaceNamespaceCompactsOnce | jsonLD_creator/main.py:98-102 | under the same condition, when `local` does not itself contain `ns`, the result is exactly `prefix:local` |
| JsonLdCreator.ConvertParts | jsonLD_creator/main.py:123-133 | the name is built from the last two `/`-segments of the path |
| JsonLdCreator.ConvertSegments | jsonLD_creator/main.py:123-133 | for `/`-free segments: the second-to-last segment (or the given namespace), `:`, the last segment with every `Shape` removed, lower-cased iff `as_node_name` |
| JsonLdCreator.FirstMatch | jsonLD_creator/main.py:135-147 | `getValue` selects the first key, in insertion order, that contains the name (lower-cased key when asked); no key contains it when nothing is found |
| JsonLdCreator.DataFromMetadata | jsonLD_creator/main.py:150-154 | `meta[path]` when the path is a key of the metadata dict, else None |
| JsonLdCreator.GetNamespace | jsonLD_creator/main.py:161-165 | succeeds iff the name has at least two `:`-parts (IndexError otherwise); with exactly two, `ns:name` is rebuilt from them |
| JsonLdCreator.UriFromNamespace | jsonLD_creator/main.py:352-357 | the IRI cut after its last `#`, else after its last `/`; the cut is a prefix of the input with no `#` (or `/`) after it |
| JsonLdCreator.UriFromNamespaceIdempotent | jsonLD_creator/main.py:352-357 | the namespace of a namespace is itself |
| JsonLdCreator.NewGroup | jsonLD_creator/main.py:174-189 | a list group is a new empty list; a dict group holds exactly `@type` = the node's name without lower-casing |
| JsonLdCreator.Store | jsonLD_creator/main.py:258-264 | a property is registered in the per-element object when the group is a list, else in the group itself, under its key |
| JsonLdCreator.DefaultFor | jsonLD_creator/main.py:246-247 | the default reads the `data_type` local as it stands: UnboundLocalError when never assigned, KeyError when outside the table, else the converted default text |
| JsonLdCreator.FillContent | jsonLD_creator/main.py:192-267 | the loop over a node's property shapes computes `fill_content` as specified |
| JsonLdCreator.FillContentFinish | jsonLD_creator/main.py:266-267 | after the properties, a list group gains the per-element object at its end; a dict group is returned as filled |
| JsonLdCreator.FillProperty | jsonLD_creator/main.py:198-225 | a property with a non-empty node is a sub-structure; otherwise one without a datatype is skipped and one with a datatype is a literal |
| JsonLdCreator.FillNodeProperty | jsonLD_creator/main.py:201-221 | a node outside the ontology's shapes is skipped; a missing path raises AttributeError |
| JsonLdCreator.FillNodeAt | jsonLD_creator/main.py:204-216 | equals `NodeStep`, of which `NodeStepStores` proves: a node whose key is not in the metadata is skipped; otherwise the key holds the sub-group filled from the metadata value and nothing else changes |
| JsonLdCreator.FillLiteral | jsonLD_creator/main.py:227-264 | one literal property, equal to the specified step |
| JsonLdCreator.LiteralStepEarly | jsonLD_creator/main.py:228-236 | an invalid maxCount raises before anything else; a missing path raises TypeError |
| JsonLdCreator.FillLiteralAt | jsonLD_creator/main.py:236-264 | the literal's value is looked up under its compacted path and then copied, defaulted or skipped |
| JsonLdCreator.CopyItems | jsonLD_creator/main.py:241-243 | the list literal receives the metadata elements one by one, in order |
| JsonLdCreator.FillSubGroup | jsonLD_creator/main.py:212-216 | `fill_content` is applied once per element of a metadata list, in order, else once |
| JsonLdCreator.FillForeignProperty | jsonLD_creator/main.py:306-320 | equals `ForeignProperty`: a property of a foreign shape without a node, or whose node that ontology does not define, is skipped (`ForeignPropertySkips`); a missing path raises AttributeError; otherwise `ForeignPropertyStores` applies |
| JsonLdCreator.FillForeignAt | jsonLD_creator/main.py:310-320 | equals `ForeignProperty`, of which `ForeignPropertyStores` proves: a sub-node whose key the sub-metadata lacks leaves the group unchanged; one it holds is filled by `fill_content` from that entry and stored at that key, and no other key changes |
| JsonLdCreator.FillForeignGroup | jsonLD_creator/main.py:288-327 | equals `ForeignStep`, of which `ForeignStepStores` proves: the claim is unchanged when the prefix names no loaded ontology, that ontology lacks the node or the metadata lacks the group; otherwise the group name holds an object that starts with `@type` set to the node's prefixed name and is filled by the loop over the foreign shape, and no other key changes |
| JsonLdCreator.FillRootProperty | jsonLD_creator/main.py:283-341 | one property of the schema shape: skipped without a node, foreign or local otherwise |
| JsonLdCreator.FillLocalNode | jsonLD_creator/main.py:331-341 | equals `LocalNodeStep`, of which `LocalNodeStepStores` proves: the claim is unchanged when the metadata lacks the node's key; otherwise that key holds the group `fill_content` fills from the metadata entry, and no other key changes |
| JsonLdCreator.FillProperties | jsonLD_creator/main.py:270-341 | `fill_properties` as specified; the claim is unchanged when no shape key contains `<name>shape` |
| JsonLdCreator.FillClaimData | jsonLD_creator/main.py:379-397 | an unknown namespace yields an empty claim; otherwise the claim starts with `@context`, `@id`, `@type`, in that order |
| JsonLdCreator.PropStepKeepsList | jsonLD_creator/main.py:259-264 | a property step never writes into a list group itself |
| JsonLdCreator.NodeStepKeepsList | jsonLD_creator/main.py:201-216 | a sub-node step that succeeds on a list group leaves the state unchanged |
| JsonLdCreator.LiteralStepKeepsList | jsonLD_creator/main.py:259-261 | a literal step on a list group writes only the per-element object |
| JsonLdCreator.FoldKeepsList | jsonLD_creator/main.py:198-264 | the whole property loop leaves a list group as it was |
| JsonLdCreator.ListGroupGainsOne | jsonLD_creator/main.py:266-267 | `fill_content` on a list group keeps its elements and appends exactly one object |
| JsonLdCreator.FillEachCount | jsonLD_creator/main.py:212-214 | filling a list group once per metadata element adds one object per element and keeps the earlier ones |
| JsonLdCreator.ListNodeOnePerElement | jsonLD_creator/main.py:206-214 | a list-valued sub-node whose metadata is a list of n elements is registered as a list of n objects |
| JsonLdCreator.NestedUnderListFails | jsonLD_creator/main.py:211 | registering a sub-node in a group that is a list raises TypeError |
| JsonLdCreator.SingletonCopied | jsonLD_creator/main.py:231-245 | a single-valued literal found in the metadata is stored as `{@type: prefixed datatype, @value: value}` under the lower-cased prefixed path, and sets `data_type` |
| JsonLdCreator.ListCopied | jsonLD_creator/main.py:229-243 | a list literal found in the metadata is stored as its elements, in order, under the lower-cased prefixed path; `data_type` is untouched |
| JsonLdCreator.MissingOptionalSkipped | jsonLD_creator/main.py:252-256 | a missing optional literal adds no key |
| JsonLdCreator.MissingRequiredSingleton | jsonLD_creator/main.py:246-251 | a missing required single-valued literal gets the zero of its datatype, or raises KeyError for a datatype outside the table |
| JsonLdCreator.MissingRequiredListStale | jsonLD_creator/main.py:246-249 | a missing required list literal reads the previous `data_type`: UnboundLocalError when none was set, else a one-element list holding that datatype's zero |
| JsonLdCreator.UntypedSkipped | jsonLD_creator/main.py:223-225 | a property with neither node nor datatype is skipped |
| JsonLdCreator.FoldRootKeepsKeys | jsonLD_creator/main.py:283-341 | the schema loop never moves or removes a key already in the claim |
| JsonLdCreator.RootStepKeepsKeys | jsonLD_creator/main.py:284-341 | one schema property keeps the existing keys in order |
| JsonLdCreator.LocalNodeStepPuts | jsonLD_creator/main.py:331-341 | a local node either leaves the claim unchanged or sets exactly one key, its converted path |
| JsonLdCreator.ForeignStepKeepsKeys | jsonLD_creator/main.py:288-327 | a foreign node keeps the existing keys in order |
| JsonLdCreator.FillPropertiesKeepsKeys | jsonLD_creator/main.py:270-341 | `fill_properties` keeps the existing keys of the claim in order |
| JsonLdCreator.NodeNameWithNamespace | jsonLD_creator/main.py:123-133 | a node name built with a namespace is that namespace, lower-cased, or has `:` right after it |
| JsonLdCreator.FoldRootKeepsHeader | jsonLD_creator/main.py:283-341 | a key without `:` other than the lower-cased namespace keeps its value through the schema loop |
| JsonLdCreator.RootStepKeepsHeader | jsonLD_creator/main.py:284-341 | the same for one schema property |
| JsonLdCreator.ForeignStepKeepsHeader | jsonLD_creator/main.py:288-327 | the same for a foreign node |
| JsonLdCreator.LocalNodeStepStores | jsonLD_creator/main.py:331-341 | a node of the schema's ontology whose key the metadata lacks leaves the claim unchanged; when the metadata holds it, the claim gains at that key the group `fill_content` fills (a new list or `{@type: node name}`, per `is_list_property`) from that entry, and every other key keeps its value |
| JsonLdCreator.ForeignPropertyStores | jsonLD_creator/main.py:306-320 | a foreign sub-node whose key the sub-metadata lacks leaves the group unchanged; when it holds it, the group gains at that key the sub-group `fill_content` fills from that entry, and every other key keeps its value |
| JsonLdCreator.ForeignPropertySkips | jsonLD_creator/main.py:306-308 | a property of a foreign shape without a node, or whose node that ontology does not define, changes nothing |
| JsonLdCreator.ForeignPropertyKeeps | jsonLD_creator/main.py:306-320 | a foreign sub-node never moves a key of the group and never writes a key without `:` other than the lower-cased namespace |
| JsonLdCreator.FoldForeignKeeps | jsonLD_creator/main.py:306-320 | the loop over a foreign shape keeps the group's keys in order, and the values of keys no sub-node can write |
| JsonLdCreator.ForeignStepStores | jsonLD_creator/main.py:288-327 | a node of another ontology: unchanged claim when the prefix names no loaded ontology, that ontology lacks the node or the metadata lacks the group; otherwise the group name holds an object filled by the loop over the foreign shape, whose first key is `@type` with the node's prefixed name (when the prefix is non-empty and does not lower-case to `@type`), and every other key keeps its value |
| JsonLdCreator.NodeStepStores | jsonLD_creator/main.py:204-216 | a sub-node of the ontology on a dict group: unchanged state when the metadata lacks its key; otherwise the key holds the sub-group (dict or list by the property's max count) filled from the metadata value, and every other key, the per-element object and `data_type` keep their values |
| JsonLdCreator.PropStepKeepsKeys | jsonLD_creator/main.py:198-264 | one iteration of the property loop keeps a dict group a dict and leaves its existing keys in order |
| JsonLdCreator.LiteralStepKeepsKeys | jsonLD_creator/main.py:222-264 | a literal property step keeps a dict group a dict and leaves its existing keys in order |
| JsonLdCreator.FoldKeepsKeys | jsonLD_creator/main.py:198-264 | the whole property loop keeps a dict group a dict and its existing keys in order |
| JsonLdCreator.FilledDictTyped | jsonLD_creator/main.py:182-264 | a single-valued sub-group comes out of the fill as a dict whose first key is `@type` |
| JsonLdCreator.FoldRootKeepsHeaderKeys | jsonLD_creator/main.py:283-341 | `@context`, `@id` and `@type` are left alone by the schema loop |
| JsonLdCreator.ClaimHeaderGets | jsonLD_creator/main.py:386-390 | the header holds the prefixes, `did:web:envited.register.market:<ns>:<did>` and `<ns>:<name>` |
| JsonLdCreator.ClaimHeaderKept | jsonLD_creator/main.py:379-397 | a composed claim keeps those three header values |
| XoscTags.GetConfValue | meta_data_extractor/xosc/extract_osc.py:310-321 | follows the `/`-separated keys through the configuration: an error where a key is looked up in a value that is not a container, otherwise the reached value, or the default when a key is missing or nothing was reached |
| XoscTags.ConfPathInside | meta_data_extractor/xosc/extract_osc.py:313-317 | a value reached through at least one key lies strictly inside the configuration, so it differs from it |
| XoscTags.ConfFoundOrDefault | meta_data_extractor/xosc/extract_osc.py:313-321 | the reached value is returned when every key is found, the default when one is missing |
| XoscTags.ConfPathTwoLevels | meta_data_extractor/xosc/extract_osc.py:311-317 | a two-key path whose keys are both present reaches the innermost value |
| XoscTags.ValueDict | meta_data_extractor/xosc/extract_osc.py:237-250 | `to_dict` of a tag value starts with `val` and has no key twice |
| XoscTags.FillTagData | meta_data_extractor/xosc/extract_osc.py:258-263 | the payload (`text`, `num`, `vec` list of value dicts) is written under `tag_data`; a payload that cannot be built is an error |
| XoscTags.AddTag | meta_data_extractor/xosc/extract_osc.py:425-435 | `add_tag` agrees with its specification: nothing for a missing or empty tag, otherwise a new record under the drawn id |
| XoscTags.PutAllKeepsPrefix | meta_data_extractor/xosc/extract_osc.py:433-434 | copying the extra attributes never moves the keys already in the record |
| XoscTags.PutAllOther | meta_data_extractor/xosc/extract_osc.py:433-434 | a key not among the extra attributes keeps its value |
| XoscTags.PutAllSets | meta_data_extractor/xosc/extract_osc.py:433-434 | every extra attribute ends up with the last value given for it |
| XoscTags.TagEntryShape | meta_data_extractor/xosc/extract_osc.py:428-434 | the record starts with `ontology_uid` and `tag_data` and holds every extra attribute |
| XoscTags.AddTagAddsOne | meta_data_extractor/xosc/extract_osc.py:425-435 | a missing or empty tag leaves the tags alone and returns None; otherwise exactly one record is appended under the fresh id, which is returned |
| XoscTags.TextTagEmptiness | meta_data_extractor/xosc/extract_osc.py:265-266 | a text tag whose values are all None or hold None adds nothing; one with a real value adds its record |
| XoscTags.NonNull | meta_data_extractor/xosc/extract_osc.py:500 | the values kept are exactly the non-None ones, no more of them |
| XoscTags.MinOf | meta_data_extractor/xosc/extract_osc.py:508 | `min` is one of the numbers and no larger than any of them |
| XoscTags.MaxOf | meta_data_extractor/xosc/extract_osc.py:509 | `max` is one of the numbers and no smaller than any of them |
| XoscTags.ListTagValue | meta_data_extractor/xosc/extract_osc.py:501-523 | the loop agreeing the Python type of the values computes the specified tag |
| XoscTags.AddListTag | meta_data_extractor/xosc/extract_osc.py:499-523 | `add_list_tag` adds the specified list tag, typed with the given tag type, for the non-None values |
| XoscTags.MinMaxSame | meta_data_extractor/xosc/extract_osc.py:508-510 | for numbers of one type, `min == max` exactly when all values are equal |
| XoscTags.ListTagFewValues | meta_data_extractor/xosc/extract_osc.py:501-523 | no values give an empty num tag (so nothing is added); one value gives a single `value` number |
| XoscTags.ListTagNumbers | meta_data_extractor/xosc/extract_osc.py:505-516 | several numbers of one type: one `value` when all equal, else `min` strictly below `max` |
| XoscTags.ListTagEqual | meta_data_extractor/xosc/extract_osc.py:510-512 | equal extremes give the single `value` number |
| XoscTags.ListTagSpread | meta_data_extractor/xosc/extract_osc.py:513-515 | distinct extremes give `min` and `max`, the first strictly smaller |
| XoscTags.AllNumeric | meta_data_extractor/xosc/extract_osc.py:506-507 | when every value has the first value's type and that is a number type, every value is a number |
| XoscTags.SameNumber | meta_data_extractor/xosc/extract_osc.py:510 | two numbers of one type with the same value are equal |
| XoscTags.ListTagMixed | meta_data_extractor/xosc/extract_osc.py:516-519 | values of mixed types, or not numbers, give one `values` vector holding them all |
| XoscTags.Attr | meta_data_extractor/xosc/extract_osc.py:646 | `attrib[key]` succeeds exactly when the key is present |
| XoscTags.AnalyzeRoadUser | meta_data_extractor/xosc/extract_osc.py:644-705 | adds the object's road-user classes to the set; a vehicle or pedestrian without its category attribute is an error |
| XoscTags.AddVehicleClasses | meta_data_extractor/xosc/extract_osc.py:646-675 | adds the classes for the vehicle category |
| XoscTags.AddRoleClasses | meta_data_extractor/xosc/extract_osc.py:679-683 | adds VehicleEmergency for ambulance, police and fire roles and VehicleConstruction for road assistance |
| XoscTags.AddPedestrianClasses | meta_data_extractor/xosc/extract_osc.py:685-697 | adds the classes for the pedestrian category |
| XoscTags.RoadUserFacts | meta_data_extractor/xosc/extract_osc.py:644-705 | a bicycle without role gives its four classes; emergency roles give VehicleEmergency; other objects give RoadUser; a vehicle fails exactly when it lacks `vehicleCategory` |
| XoscTags.TimeTags | meta_data_extractor/xosc/extract_osc.py:597-609 | the time-tag loop collects the classes of every hour |
| XoscTags.HourBuckets | meta_data_extractor/xosc/extract_osc.py:598-609 | every hour gets EnvironmentIllumination and exactly one bucket: day 8–18, ambient 6–7 and 19–20, night otherwise; low light exactly outside the day |
| XoscTags.HoursClassesIff | meta_data_extractor/xosc/extract_osc.py:597-609 | a class is collected exactly when some hour contributes it |
| XoscTags.GetTag | meta_data_extractor/xosc/extract_osc.py:1047-1050 | `get_tag` follows the path's parts, failing on a missing key |
| XoscTags.GetPathAppend | meta_data_extractor/xosc/extract_osc.py:1047-1050 | following one more part is indexing the value reached |
| XoscTags.FindTagReachesFrom | meta_data_extractor/xosc/extract_osc.py:1035-1044 | a path found below a sub-dict, extended from the root, leads to a dict whose `type` is the name sought |
| XoscTags.FindThenGet | meta_data_extractor/xosc/extract_osc.py:1035-1050 | `get_tag` of a non-empty path from `find_tag` reaches a dict whose `type` is the name sought |
| XoscTags.DefaultOneFiller | meta_data_extractor/xosc/extract_osc.py:1126-1135 | the filler agrees with its specification: the only attribute, or the attributes each followed by the separator with the last separator removed; a missing attribute is an error |
| XoscTags.ConcatIsJoin | meta_data_extractor/xosc/extract_osc.py:1131-1133 | the accumulation loop produces the join of the values plus one trailing separator |
| XoscTags.OneFillerJoins | meta_data_extractor/xosc/extract_osc.py:1126-1135 | with every attribute present the filler gives the values joined by a non-empty separator |
| XoscTags.FillFromHeaderValue | meta_data_extractor/xosc/extract_osc.py:1138-1149 | the default is stored when there is no header or an attribute is missing; otherwise the filler's value (or its error) |
| XoscTags.Basename | meta_data_extractor/xosc/extract_osc.py:1161 | the base name holds no `/` and ends the path |
| XoscTags.RegisterLinks | meta_data_extractor/xosc/extract_osc.py:1152-1166 | nothing for no links; otherwise one record per link, in order, stored under the name |
| OntologyCreator.AnyContained | ontologie_creator/main.py:64-68 | true exactly when one of the remaining special texts occurs in the name |
| OntologyCreator.CheckSpecialChars | ontologie_creator/main.py:62-68 | true exactly when the name holds a blank, a slash or `...` |
| OntologyCreator.ToCamelCase | ontologie_creator/main.py:70-79 | the loop computes the camel-cased name: the name itself when it has no words, else the first word lowered followed by the others capitalised |
| OntologyCreator.CamelCaseNoSpace | ontologie_creator/main.py:70-79 | a name with a word comes out with no whitespace in it |
| OntologyCreator.CamelCaseNoWords | ontologie_creator/main.py:72-73 | an empty or all-blank name is returned unchanged |
| OntologyCreator.CamelCaseOneWord | ontologie_creator/main.py:75 | a single word is only lowered |
| OntologyCreator.CamelCaseTwoWords | ontologie_creator/main.py:75-78 | two words: the first lowered, the second capitalised, the blank dropped |
| OntologyCreator.AddData | ontologie_creator/main.py:90-97 | the row is stored under category, sub-category and name, missing levels are created, a new category is appended to the key order, and every other category, sub-category and row is unchanged |
| OntologyCreator.ConvertRow | ontologie_creator/main.py:170-188 | converting a row succeeds exactly when it has a frequency and a unit, and keeps its name, type, example, description and frequency |
| OntologyCreator.ConvertEntry | ontologie_creator/main.py:154-188 | a converted entry is a row; a text where a row is expected is an error |
| OntologyCreator.ConvertRows | ontologie_creator/main.py:154-188 | the loop over one sub-category computes the specified conversion |
| OntologyCreator.ConvertRowsPointwise | ontologie_creator/main.py:154-188 | the conversion succeeds exactly when every entry converts, and then keeps names and order and converts each row in place |
| OntologyCreator.ConvertCategory | ontologie_creator/main.py:146-188 | the loop over the sub-categories computes the specified conversion |
| OntologyCreator.ConvertCategoryPointwise | ontologie_creator/main.py:146-150 | a converted category keeps its names in order, leaves `categorie_data` as it was and converts every other sub-category |
| OntologyCreator.ConvertAll | ontologie_creator/main.py:141-189 | the outer loop computes the specified conversion |
| OntologyCreator.ConvertAllPointwise | ontologie_creator/main.py:141-189 | the conversion keeps the category names and order and converts each category in place |
| OntologyCreator.FrequencyCardinality | ontologie_creator/main.py:170-184 | the counts written per frequency: `1`/`1.0` max 1; `0-n` min 0; `1-n` none; `0-1` min 0 and max 1; `nan` min 0; any other max 1 |
| OntologyCreator.Quoted | ontologie_creator/main.py:248 | each value is wrapped in the quote character |
| OntologyCreator.NodeTypes | ontologie_creator/main.py:237-240 | at most the data type itself is recorded as a used node |
| OntologyCreator.TypeTriplesAbout | ontologie_creator/main.py:229-251 | `handle_data_type` only describes the property node, with sh:datatype, sh:node, sh:pattern and sh:in |
| OntologyCreator.DataTypeOrNode | ontologie_creator/main.py:231-251 | an XSD type (with `#`) gives sh:datatype; any other type gives sh:node to its shape and is recorded; an unknown type adds nothing |
| OntologyCreator.EnumLiteral | ontologie_creator/main.py:245-249 | the sh:in literal lists the values sorted, each in single quotes, whatever their order in the table |
| OntologyCreator.HeadTailNoCounts | ontologie_creator/main.py:254-280 | only the count triples of a property carry a cardinality |
| OntologyCreator.PropertyCardinality | ontologie_creator/main.py:262-268 | sh:minCount only for a minimum other than 1, sh:maxCount for a maximum, and maxCount 1 when neither is set |
| OntologyCreator.PropertyCountsOnly | ontologie_creator/main.py:254-280 | the cardinalities of a property's triples are those of its count triples |
| OntologyCreator.CountTriplesCounts | ontologie_creator/main.py:262-268 | the cardinalities the count triples state |
| OntologyCreator.PropertyLinkAndOrder | ontologie_creator/main.py:255-280 | a property is linked from its shape and carries its order |
| OntologyCreator.PropertyStepAppends | ontologie_creator/main.py:254-280 | one property only appends, takes one fresh blank node and links it from the shape with its order |
| OntologyCreator.FixShacl | ontologie_creator/main.py:421-427 | every line is rewritten in place: a line with `sh:in_` gets `sh:in`, loses its `"` and has `'` turned into `"`; other lines are unchanged |
| OntologyCreator.JoinRequoted | ontologie_creator/main.py:425-426 | swapping the quote character of every quoted value, joined by blanks |
| OntologyCreator.InLiteralRequoted | ontologie_creator/main.py:425-426 | after the line rewrite, the quoted sh:in literal becomes a list of double-quoted values |
| OntologyCreator.SubCategoryNamesNoData | ontologie_creator/main.py:369-371 | `categorie_data` is never a sub-category |
| OntologyCreator.RootPropertyLinks | ontologie_creator/main.py:368-382 | the category shape links to exactly one property node per sub-category |
| OntologyCreator.RootPropertyOrders | ontologie_creator/main.py:372-382 | the k-th sub-category's root property has minCount 1, maxCount 1, order k, the camel-cased path and the sub-category shape |
| OntologyCreator.RowsFromGrows | ontologie_creator/main.py:396-399 | the rows of a sub-category only append and take one blank node each |
| OntologyCreator.RowsFromAllRows | ontologie_creator/main.py:397-398 | a sub-category converts only when every entry of it is a row |
| OntologyCreator.RowsFromProperty | ontologie_creator/main.py:396-399 | the j-th row gets a property at its own blank node ordered by its position |
| OntologyCreator.SubShapeGrows | ontologie_creator/main.py:392-403 | a sub-category shape starts with its NodeShape triple and only appends |
| OntologyCreator.SubShapeProperty | ontologie_creator/main.py:392-399 | the k-th row of a sub-category gets a property of that shape, ordered k |
| OntologyCreator.SubShapesFromGrows | ontologie_creator/main.py:388-403 | the sub-category shapes only append |
| OntologyCreator.Range2DOrdersClash | ontologie_creator/main.py:311-320 | as written, both Range2D properties get order 0 |
| OntologyCreator.Range2DAsWrittenShape | ontologie_creator/main.py:311-320 | a Range2D shape built from the table as written has its two properties at two fresh blank nodes, both with `sh:order 0` |
| OntologyCreator.Range2DShapeOrders | ontologie_creator/main.py:311-320 | the Range2D shape the generator builds from the corrected table orders `min` 0 and `max` 1 |
| OntologyCreator.BuiltinOrdersDistinct | ontologie_creator/main.py:283-334 | with Range2D corrected, every built-in shape orders its properties 0, 1, … by position |
| OntologyCreator.BuiltinPropsFromProperties | ontologie_creator/main.py:283-334 | the built-in properties only append and the k-th gets the k-th blank node with its order |
| OntologyCreator.BuiltinShapeStepGrows | ontologie_creator/main.py:283-334 | a built-in shape starts with its NodeShape triple and only appends |
| OntologyCreator.StructureShapes | ontologie_creator/main.py:337-349 | every recorded type with a built-in shape gets its node shape, and nothing in the graph is lost |
| OntologyCreator.ShaclRootProperties | ontologie_creator/main.py:352-382 | the SHACL graph starts with the category NodeShape and has, for the k-th sub-category, a required single property ordered k pointing at its shape |
| OntologyCreator.ShaclBuilder.constructor | ontologie_creator/main.py:356 | an empty graph, no blank nodes handed out, no used types |
| OntologyCreator.ShaclBuilder.NewBlank | ontologie_creator/main.py:255 | `BNode()` hands out a blank node not used before and changes nothing else |
| OntologyCreator.ShaclBuilder.Add | ontologie_creator/main.py:256 | `graph.add` appends one triple |
| OntologyCreator.ShaclBuilder.HandleDataType | ontologie_creator/main.py:229-251 | appends the type triples and records the node types |
| OntologyCreator.ShaclBuilder.AddPropertyHead | ontologie_creator/main.py:255-260 | appends the link, type and path triples |
| OntologyCreator.ShaclBuilder.AddCounts | ontologie_creator/main.py:262-268 | appends the count triples |
| OntologyCreator.ShaclBuilder.AddPropertyTail | ontologie_creator/main.py:270-280 | appends the example, message, name, description and order triples |
| OntologyCreator.ShaclBuilder.CreateProperty | ontologie_creator/main.py:254-280 | the new state is one property step from the old |
| OntologyCreator.ShaclBuilder.AddRootProperty | ontologie_creator/main.py:372-381 | appends the six triples of one root property at a fresh blank node |
| OntologyCreator.ShaclBuilder.AddRootProperties | ontologie_creator/main.py:368-382 | appends one root property per sub-category, ordered by `order_cat` |
| OntologyCreator.ShaclBuilder.AddRows | ontologie_creator/main.py:396-399 | the properties of one sub-category, or the error converting them raises |
| OntologyCreator.ShaclBuilder.AddSubShapes | ontologie_creator/main.py:388-403 | a node shape per sub-category, or the error |
| OntologyCreator.ShaclBuilder.AddBuiltinShape | ontologie_creator/main.py:283-334 | appends one built-in node shape |
| OntologyCreator.ShaclBuilder.CreateDataStructure | ontologie_creator/main.py:337-349 | adds the built-in shapes of the used types and clears the used set |
| OntologyCreator.CreateShacl | ontologie_creator/main.py:352-406 | `create_shacl` (without the file) builds the specified graph |
| TrimToBox.IntersectsIff | xodr_trim_to_box/main.py:28-35 | two boxes intersect exactly when both have a positive extent and their open ranges overlap on both axes |
| TrimToBox.IntersectsSymmetric | xodr_trim_to_box/main.py:28-35 | intersection does not depend on the order of the boxes |
| TrimToBox.TouchingDoNotIntersect | xodr_trim_to_box/main.py:29-32 | boxes that only share an edge do not intersect |
| TrimToBox.SentinelIntersectsNothing | xodr_trim_to_box/main.py:17-35 | the default box intersects no box |
| TrimToBox.ExpandPosHolds | xodr_trim_to_box/main.py:47-56 | after `expandByPos` the box holds the point, has not shrunk, and is the smallest such box |
| TrimToBox.ExpandBoxCovers | xodr_trim_to_box/main.py:37-45 | after `expandByBox` the box covers its old extent and the other box, and is the smallest such box |
| TrimToBox.WidenMoves | xodr_trim_to_box/main.py:58-62 | every bound moves outward by the seam: widenings add up, a zero seam changes nothing, a non-negative one covers the old box, each side grows by twice the seam |
| TrimToBox.Box2D.constructor | xodr_trim_to_box/main.py:17-26 | a box with the four given bounds, in the order `xMin, xMax, yMin, yMax` |
| TrimToBox.Box2D.Empty | xodr_trim_to_box/main.py:17-26 | the default box, from the largest double down to minus it |
| TrimToBox.Box2D.Intersection | xodr_trim_to_box/main.py:28-35 | true exactly when both boxes have a positive extent and overlap on both axes |
| TrimToBox.Box2D.ExpandByBox | xodr_trim_to_box/main.py:37-45 | the box becomes the smallest box covering it and the other box |
| TrimToBox.Box2D.ExpandByPos | xodr_trim_to_box/main.py:47-56 | the box becomes the smallest box covering it and the point |
| TrimToBox.Box2D.ExpandBySeam | xodr_trim_to_box/main.py:58-62 | every bound is moved outward by the seam |
| TrimToBox.GeometryBoundsHolds | xodr_trim_to_box/main.py:78-85 | a geometry's box holds its start and end point with 10 to spare on every side |
| TrimToBox.GeometryBoundsExact | xodr_trim_to_box/main.py:78-85 | within the range of doubles, that box is exactly the box of the two points widened by 10 |
| TrimToBox.CalculateBoundingBox | xodr_trim_to_box/main.py:78-85 | `calculate_bounding_box` returns a fresh box equal to the geometry's box |
| TrimToBox.HullCovers | xodr_trim_to_box/main.py:90-97 | the hull of the geometries covers the box of each |
| TrimToBox.RoadBoundsCovers | xodr_trim_to_box/main.py:88-98 | a road's box covers the box of each of its geometries |
| TrimToBox.RoadBoundsHolds | xodr_trim_to_box/main.py:88-98 | every geometry's start and end point lie in the road's box with 10 to spare |
| TrimToBox.RoadBoundsEmpty | xodr_trim_to_box/main.py:89-98 | a road without geometries keeps the default box |
| TrimToBox.GetRoadBounding | xodr_trim_to_box/main.py:88-98 | `getRoadBounding` returns a fresh box equal to the road's box |
| TrimToBox.FilterMembers | xodr_trim_to_box/main.py:114-118 | exactly the children that pass the test remain |
| TrimToBox.FilterAppend | xodr_trim_to_box/main.py:114-118 | filtering works piece by piece, so it keeps the order |
| TrimToBox.FilterInPlaceStep | xodr_trim_to_box/main.py:115-118 | removing the current child when it fails the test, or moving past it, keeps the remaining list equal to the filtered prefix followed by the unvisited children |
| TrimToBox.EmptyRoadRemoved | xodr_trim_to_box/main.py:116-118 | a road without geometries is always removed |
| TrimToBox.KeepChild | xodr_trim_to_box/main.py:116-117 | a road is kept exactly when its box intersects the given box |
| TrimToBox.XodrRoot.constructor | xodr_trim_to_box/main.py:108-109 | the root holds the given children |
| TrimToBox.XodrRoot.RemoveAt | xodr_trim_to_box/main.py:118 | `root.remove` takes out exactly the child at that position |
| TrimToBox.XodrRoot.ReduceRoads | xodr_trim_to_box/main.py:114-119 | after the loop the children are the old ones filtered by the keep test, in order |
| TrimToBox.MainBoxAsWrittenRemovesAll | xodr_trim_to_box/main.py:133-134 | as written, the box for the square (0, 0)–(100, 100) removes every road |
| TrimToBox.MainBoxKeeps | xodr_trim_to_box/main.py:127-134 | with the arguments in their intended places, a road stays exactly when its box overlaps the requested rectangle on both axes |
| PlanView.EndPositionDistance | xodr_calc_box/main.py:47-50 | a zero length ends at the start; with a proper cosine and sine the end lies exactly `length` away from the start |
| PlanView.EmittedShape | xodr_calc_box/main.py:68-76 | after k geometries of a line the points are their k starts, shifted by the offset, plus the end point once the last geometry is reached |
| PlanView.LinePointsShape | xodr_calc_box/main.py:68-76 | a line yields one start per geometry, in order, and then the end point of its last geometry only; an empty line yields nothing |
| PlanView.AllPointsStarts | xodr_calc_box/main.py:67-76 | every geometry start of every line, shifted by the offset, is among the points |
| PlanView.AllPointsEmpty | xodr_calc_box/main.py:67-76 | lines without geometries contribute no points |
| PlanView.AllPointsNonEmpty | xodr_calc_box/main.py:67-76 | one non-empty line is enough for a non-empty point list |
| CalcBox.IncludeContains | xodr_calc_box/main.py:57-62 | the updated box contains the point, has not shrunk, and is the smallest box that does both |
| CalcBox.IncludeKeeps | xodr_calc_box/main.py:57-62 | whatever the box contained it still contains after an update |
| CalcBox.PointsBoxContains | xodr_calc_box/main.py:57-76 | the box contains every point it was updated with |
| CalcBox.PointsBoxAttained | xodr_calc_box/main.py:53-62 | once there is a point, every bound is finite and is a coordinate of one of the points |
| CalcBox.Box.constructor | xodr_calc_box/main.py:14-18 | a box with the four given bounds |
| CalcBox.InitializeBoundingBox | xodr_calc_box/main.py:53-54 | a fresh box with the infinite bounds that any point replaces |
| CalcBox.UpdateBoundingBox | xodr_calc_box/main.py:57-62 | changes the box in place to include the point and returns that same box |
| CalcBox.AddGeometry | xodr_calc_box/main.py:69-75 | one pass of the inner loop adds the start, and the end when the counter has reached zero |
| CalcBox.AddLine | xodr_calc_box/main.py:67-75 | the inner loop adds the starts of the line's geometries and the end of its last one |
| CalcBox.CalculateBox | xodr_calc_box/main.py:65-76 | `calcBox` returns a fresh box equal to the box of all emitted points |
| CalcBox.CalculateBoxContainsStarts | xodr_calc_box/main.py:65-76 | that box contains every geometry start moved by the offset |
| CalcBox.CalculateBoxNoGeometries | xodr_calc_box/main.py:65-76 | with no geometries the initial box is returned |
| CalcBox.CalculateBoxTight | xodr_calc_box/main.py:65-76 | with a geometry, each bound is finite, is a coordinate of a point, and bounds all points |
| RoutingCreator.ProjectPointwise | xodr_routing_creator/main.py:67-68 | transforming points keeps their number and transforms each where it stands |
| RoutingCreator.ReprojectedLines | xodr_routing_creator/main.py:60-75 | one transformed line per line, each the transform of its emitted points |
| RoutingCreator.ReprojectShape | xodr_routing_creator/main.py:62-74 | a line of n geometries gives n+1 pairs (none for an empty line): each start moved by the offset and transformed, then the transformed end of the last geometry |
| RoutingCreator.ReprojectLine | xodr_routing_creator/main.py:63-73 | the inner loop computes the transformed points of one line |
| RoutingCreator.Reproject | xodr_routing_creator/main.py:60-75 | `reproject` computes the transformed lines |
| RoutingCreator.FlattenMembers | xodr_routing_creator/main.py:130-133 | a pair is gathered exactly when it belongs to one of the elements |
| RoutingCreator.FirstsSeconds | xodr_routing_creator/main.py:132-133 | the two lists hold the first and second components of the pairs, in order |
| RoutingCreator.BoundingBoxFails | xodr_routing_creator/main.py:136-139 | `create_bounding_box` fails (`min` of an empty list) exactly when no element has a pair |
| RoutingCreator.BoundingBoxCovers | xodr_routing_creator/main.py:127-141 | otherwise every pair lies within the bounds |
| RoutingCreator.BoundingBoxAttained | xodr_routing_creator/main.py:136-139 | and each bound is a component of one of the pairs |
| RoutingCreator.CreateBoundingBox | xodr_routing_creator/main.py:127-141 | the loops and `min`/`max` compute the specified box or error |
| RoutingCreator.BoxRingClosed | xodr_routing_creator/main.py:180-185 | the box ring is closed, has five points, visits every corner, and each edge is parallel to an axis |
| RoutingCreator.CoordsJsonRoundTrip | xodr_routing_creator/main.py:101-110 | the coordinates written into a feature read back exactly |
| RoutingCreator.CreateGeoJson | xodr_routing_creator/main.py:93-119 | the loop of `create_geojson` builds the specified document |
| RoutingCreator.FeaturesPointwise | xodr_routing_creator/main.py:94-114 | one feature per element, in element order |
| RoutingCreator.FeatureShape | xodr_routing_creator/main.py:97-113 | a feature has type Feature, empty properties and the element's geometry |
| RoutingCreator.GeometryShape | xodr_routing_creator/main.py:99-111 | the geometry is a MultiPolygon exactly for polygons (a LineString otherwise) and its coordinates read back as the element |
| RoutingCreator.GeoJsonFeatures | xodr_routing_creator/main.py:116-119 | the document is a FeatureCollection of those features in order |
| AssetReducer.MapValues | asset_reducer/main.py:23-24 | one value per child when every child converts |
| AssetReducer.MapValuesPointwise | asset_reducer/main.py:23-24 | each value is the conversion of the child where it stands |
| AssetReducer.MapValuesErrPrefix | asset_reducer/main.py:23-24 | the first failing child's error is the error of the whole pass |
| AssetReducer.ExtremaBounds | asset_reducer/main.py:12-29 | `calcExtrema` gives `{}` exactly when no child matches; otherwise min ≤ max, every child's `a` value (0 when absent) lies between them, and both occur among those values |
| AssetReducer.ChildrenRange | asset_reducer/main.py:16-29 | the smallest and largest `a` values of a non-empty list of children bound all of them and are attained |
| AssetReducer.CalcExtrema | asset_reducer/main.py:12-29 | the loop from min = inf and max = -inf computes the specified extrema, None for no element, or the `float` error |
| AssetReducer.AttributesOfGet | asset_reducer/main.py:32-39 | `extract_attributes` holds exactly the requested attributes the element has, with the element's values |
| AssetReducer.ExtractAttributes | asset_reducer/main.py:32-39 | the loop computes the specified attribute dict |
| AssetReducer.AttributesOfUnique | asset_reducer/main.py:32-39 | the result never repeats a key |
| AssetReducer.AttributeDataGet | asset_reducer/main.py:50-52 | the copied attributes are exactly the listed ones the element has, as strings |
| AssetReducer.MappedDataMapped | asset_reducer/main.py:47-58 | a mapped element's data is the copied attributes, then `min` and `max` when `calcExtrema` finds a range |
| AssetReducer.MappedDataFails | asset_reducer/main.py:53-58 | the mapping step fails exactly for an empty function list, `calcExtrema` without a node name, or a child `a` value that is not a number |
| AssetReducer.MappedDataGet | asset_reducer/main.py:43-58 | an unmapped element has no data; a mapped one holds `min`/`max` of a range when found, otherwise exactly the listed attributes it has |
| AssetReducer.MapTag | asset_reducer/main.py:43-58 | the mapping step computes the specified data or error |
| AssetReducer.GroupStepGet | asset_reducer/main.py:66-69 | adding one child result fails exactly when its key holds a non-list, else extends that key's list and changes nothing else |
| AssetReducer.GroupAllFails | asset_reducer/main.py:63-69 | grouping fails exactly when some result's key is already bound to a non-list |
| AssetReducer.GroupAllGet | asset_reducer/main.py:63-69 | after grouping, each key with results holds the earlier list followed by them; every other key is unchanged |
| AssetReducer.FoldIsGroupAll | asset_reducer/main.py:61-69 | the loop over the children succeeds exactly when every child succeeds and their results group, and then it is that grouping |
| AssetReducer.GroupChildren | asset_reducer/main.py:61-69 | the loop, with a recursive call per child, computes the specified fold |
| AssetReducer.ProcessElement | asset_reducer/main.py:41-77 | `process_element` computes the specified result |
| AssetReducer.ProcessData | asset_reducer/main.py:41-77 | None exactly for an unmapped element without child results that is not a header's geoReference; otherwise `{tag: data}` with `proj4_str` for that geoReference and, under every other key, the mapped value with the children's results grouped after it |
| AssetReducer.ProcessTag | asset_reducer/main.py:47-75 | a result is keyed by the element's tag, and a mapped element always has one |
| AssetReducer.ChildResultsFrom | asset_reducer/main.py:63-65 | each child result comes from a child with the same tag |
| AssetReducer.ChildResultsMapped | asset_reducer/main.py:63-75 | every mapped child gives a result |
| AssetReducer.Singletons | asset_reducer/main.py:112-115 | one output record per result |
| AssetReducer.ReduceNext | asset_reducer/main.py:112-115 | one child of the root: its failure is the reducer's failure, otherwise its result joins the gathered ones |
| AssetReducer.ReduceAsset | asset_reducer/main.py:111-115 | the loop of `main` gives `{tag: data}` for each child of the root with a result, in document order |
| XodrReducerIo.FilledFresh | xodr_reducer/io_functions.py:34-48 | filling a new element from a dict gives the element that dict describes |
| XodrReducerIo.TopElements | xodr_reducer/io_functions.py:56-63 | one child of the root per entry of a top-level dict |
| XodrReducerIo.RootChildrenErr | xodr_reducer/io_functions.py:55-56 | a top-level item that is not a dict is the failure of the whole call |
| XodrReducerIo.RootChildrenFails | xodr_reducer/io_functions.py:55-56 | such an item makes the rest of the loop fail |
| XodrReducerIo.TopElementTag | xodr_reducer/io_functions.py:57 | the child for an entry is named by the entry's key |
| XodrReducerIo.TopElementsKeys | xodr_reducer/io_functions.py:56-57 | the children for a top-level dict are named by its keys, in order |
| XodrReducerIo.RootChildrenKeys | xodr_reducer/io_functions.py:55-57 | when every item is a dict, the root's children are named by the keys of the items, item after item |
| XodrReducerIo.RebuiltShape | xodr_reducer/io_functions.py:52-65 | `json_to_xml` succeeds exactly when every item is a dict, and then returns an `OpenDRIVE` root without attributes or text whose children are named by the items' keys in order |
| XodrReducerIo.EntryChildrenShape | xodr_reducer/io_functions.py:35-42 | a dict entry adds one child element, a list entry one child per item in order, a scalar none; all are named by the key |
| XodrReducerIo.ListElementsPointwise | xodr_reducer/io_functions.py:44-50 | `json_to_xml_handle_list` adds one element per item, in order, named by the key |
| XodrReducerIo.ItemElementShape | xodr_reducer/io_functions.py:46-50 | a dict item becomes an element filled from it; any other item an element whose text is `str(item)` |
| XodrReducerIo.ObjElementAttrs | xodr_reducer/io_functions.py:34-42 | in a dict with unique keys, each scalar entry becomes an attribute holding `str(value)`, and no other key is an attribute |
| XodrReducerIo.AttrsGetMissing | xodr_reducer/io_functions.py:41-42 | a key no entry carries keeps its earlier attribute |
| XodrReducerIo.AttrsGetAt | xodr_reducer/io_functions.py:41-42 | the entry carrying a key decides its attribute |
| XodrReducerIo.AddAttributesAndChildren | xodr_reducer/io_functions.py:34-42 | the loop fills the element as specified |
| XodrReducerIo.AddEntry | xodr_reducer/io_functions.py:36-42 | one entry: a scalar sets an attribute, a dict or list appends its children, nothing else changes |
| XodrReducerIo.HandleList | xodr_reducer/io_functions.py:44-50 | appends one new child named by the key per item |
| XodrReducerIo.JsonToXml | xodr_reducer/io_functions.py:52-65 | `json_to_xml` computes the specified root or the error |
| StructureCreator.FolderTypeFirst | structure_creator/main.py:69-72 | the folder search finds the first type with that folder, and nothing when no type has it |
| StructureCreator.FolderTypes | structure_creator/main.py:69-72 | each folder name gives the first type of the table using it (`visualization` gives Image), and an unknown folder none |
| StructureCreator.DataTypeOf | structure_creator/main.py:61-72 | a known extension decides the type; otherwise the first type whose folder is the entry's folder name (its own name for a directory), or none |
| StructureCreator.GetFileAt | structure_creator/main.py:75-79 | the first entry whose `filename` is the name is returned; an entry without a `filename` before it raises |
| StructureCreator.GetFileNone | structure_creator/main.py:75-79 | nothing is found exactly when every entry has a `filename` and none is the name |
| StructureCreator.FileRecordKeys | structure_creator/main.py:84-88 | a file record holds access role, relative path, type and format, in that order |
| StructureCreator.RegisterAsset | structure_creator/main.py:81-91 | the category becomes a one-element list with the record of the file; every other key is unchanged |
| StructureCreator.RecordShape | structure_creator/main.py:102-113 | a record has role `publicUser` for a Service and the given role otherwise, a relative path that leads from the data folder back to the file, the type, and the extension as format |
| StructureCreator.RecordForParts | structure_creator/main.py:102-113 | a record that succeeds is built from the type and the relative path |
| StructureCreator.RecordsInOrder | structure_creator/main.py:99-114 | one record per file, skipping directories and keeping the order; the pass fails exactly when some file's record fails |
| StructureCreator.MergeEffect | structure_creator/main.py:116-120 | no records leave the data alone; otherwise a new category gets the list, an existing list is extended in place, a non-list value raises, and every other key is untouched |
| StructureCreator.RegisterData | structure_creator/main.py:94-120 | nothing for a missing path; otherwise the records of the files found, added to the category, or the error |
| StructureCreator.AddFiles | structure_creator/main.py:116-120 | the end of `register_data` computes the specified merge |
| StructureCreator.MasksPlain | structure_creator/main.py:18-59 | the masks have no directory part and are never empty |
| StructureCreator.KnownMask | structure_creator/main.py:125-126 | the mask of a known type has no directory part and is not empty |
| StructureCreator.CreateFileName | structure_creator/main.py:123-142 | `createFileName` exits exactly for a type not in the table |
| StructureCreator.CreateFileNameIgnoresStem | structure_creator/main.py:124-131 | the old file's stem plays no part, only its suffix |
| StructureCreator.ImpressionNumberChars | structure_creator/main.py:138 | the index text is made of digits and a sign |
| StructureCreator.ImpressionNumberReadsBack | structure_creator/main.py:138 | a positive index reads back from its zero-padded text |
| StructureCreator.NewStemPlain | structure_creator/main.py:131-141 | with such an asset name, the new stem has no directory part and is not empty |
| StructureCreator.CreateFileNameParts | structure_creator/main.py:123-142 | for a known type the new name is a plain file name with the new stem and the old suffix |
| StructureCreator.ImageTagsDistinct | structure_creator/main.py:134-139 | different image indices get different tags |
| StructureCreator.SuffixPlain | structure_creator/main.py:132 | the suffix of a name has no directory part |
| StructureCreator.ImageTagPlain | structure_creator/main.py:134-139 | an image tag has no directory part and starts with `_` |
| StructureCreator.ImageMask | structure_creator/main.py:43-46 | images take the mask `{asset}`, which becomes the asset name |
| StructureCreator.ImageName | structure_creator/main.py:131-139 | an image's name is the asset name, its tag and the old suffix |
| StructureCreator.ImageNamesDistinct | structure_creator/main.py:134-139 | two image indices never give the same name, so no image overwrites another |
| AssetExtraction.GetAssetType | asset_extraction/main.py:190-195 | an extension without an asset type ends the program |
| AssetExtraction.AssetTypeOfFile | asset_extraction/main.py:184-195 | `.xodr` gives hdmap, `.xosc` scenario, `.zip`, `.7z` and `.3dmodel` environment-model; every other suffix ends the program |
| AssetExtraction.AppliesDict | asset_extraction/main.py:38-42 | an entry with an `extensions` list applies exactly when the list holds the extension; one without applies always |
| AssetExtraction.ConfigFilesAbsent | asset_extraction/main.py:37 | without `config_files` nothing is selected |
| AssetExtraction.ConfigFilesInOrder | asset_extraction/main.py:36-42 | the filter succeeds exactly when every entry can be tested and each applying one has a file name; it gives the file names of the applying entries, in order |
| AssetExtraction.FilterConfigs | asset_extraction/main.py:36-42 | the filter loop computes the specified file names |
| AssetExtraction.FilterEntries | asset_extraction/main.py:37-42 | the loop over the entries computes the specified file names |
| AssetExtraction.CheckApplies | asset_extraction/main.py:38-39 | the test of one entry; a failing test fails the whole filter |
| AssetExtraction.ReplaceFilePatternNormal | asset_extraction/main.py:58-68 | the result is a URL or a normalised path |
| AssetExtraction.ReplaceFilePatternPlain | asset_extraction/main.py:58-68 | a pattern without placeholders is only normalised, or kept when it is a URL |
| AssetExtraction.Expand | asset_extraction/main.py:137-157 | expanding a configuration value succeeds exactly for a string |
| AssetExtraction.InputArgsShape | asset_extraction/main.py:133-138 | the input section fails exactly when some value fails to expand; it has one expanded value per item plus the non-empty names, ending with the last item's value |
| AssetExtraction.InputArgsPointwise | asset_extraction/main.py:133-138 | item by item, in item order: each input contributes its name when that is non-empty and then its expanded value, at the place after the earlier items' arguments; nothing else is added |
| AssetExtraction.OutputArgsOk | asset_extraction/main.py:143-147 | the output section fails exactly when some value fails to expand |
| AssetExtraction.OutputArgsPairs | asset_extraction/main.py:143-147 | output parameters come in pairs: the name, then the expanded value |
| AssetExtraction.AdditionalArgsShape | asset_extraction/main.py:153-158 | the additional section fails exactly when a truthy value fails to expand; it has every name plus one value per truthy value |
| AssetExtraction.AdditionalArgsPointwise | asset_extraction/main.py:153-158 | item by item, in item order: each additional parameter contributes its name and then, only when its value is truthy, the expanded value, at the place after the earlier items' arguments; nothing else is added |
| AssetExtraction.CallHeadShape | asset_extraction/main.py:119-128 | the call starts with the environment type, Python's `-X frozen_modules=off` pair, then the script path |
| AssetExtraction.CallArgsStart | asset_extraction/main.py:139-140 | without `input` parameters the arguments start with the asset file |
| AssetExtraction.ScriptCallStart | asset_extraction/main.py:119-140 | a call starts with its head, then the asset file when there are no `input` parameters |
| AssetExtraction.ScriptCallParts | asset_extraction/main.py:100-158 | a call that succeeds is its head followed by its arguments, and the asset has a type |
| AssetExtraction.CollectInputs | asset_extraction/main.py:134-138 | the input loop computes the specified arguments |
| AssetExtraction.CollectOutputs | asset_extraction/main.py:144-147 | the output loop computes the specified arguments |
| AssetExtraction.CollectAdditional | asset_extraction/main.py:154-158 | the additional loop computes the specified arguments |
| AssetExtraction.ExpandOrFail | asset_extraction/main.py:137-157 | expanding one value; when it fails, so does the whole section |
| AssetExtraction.SectionErrPrefix | asset_extraction/main.py:133-158 | once a prefix of a section fails, the section fails the same way |
| AssetExtraction.SectionArgs | asset_extraction/main.py:133-158 | the arguments of one optional section |
| AssetExtraction.CollectCallArgs | asset_extraction/main.py:132-158 | the inputs (or the asset file), outputs and additional arguments |
| AssetExtraction.StartCall | asset_extraction/main.py:119-128 | the start of the call, appended piece by piece |
| AssetExtraction.AssembleScriptCall | asset_extraction/main.py:100-158 | the argument assembly of `execute_script` computes the specified call or error |
| UrlUtils.EnvitedHttps | utils/utils.py:11 | a URL starting with the ENVITED-X host is an `https` URL |
| UrlUtils.RemoveUnsafe | utils/utils.py:42 | the parser's clean-up leaves no tab or line break |
| UrlUtils.RemoveUnsafeKeeps | utils/utils.py:42 | a URL without tabs and line breaks is kept as it is |
| UrlUtils.Before | utils/utils.py:42 | the text before the first occurrence of a character holds none and starts the text |
| UrlUtils.NetlocEnd | utils/utils.py:42 | the network location runs up to the first `/`, `?` or `#`, or the end |
| UrlUtils.NonEmpty | utils/utils.py:44 | the non-empty pieces of the path, taken from it |
| UrlUtils.GetUrlForDownload | utils/utils.py:37-53 | None exactly for an ENVITED-X URL without a path segment; the SHACL file URL of the first segment for one with; otherwise every `#` replaced by `.ttl` |
| UrlUtils.FirstSegment | utils/utils.py:44-47 | the first segment is the first non-empty piece of the path |
| UrlUtils.NoSegments | utils/utils.py:44-46 | a path has no segment exactly when every piece is empty |
| UrlUtils.ShaclFileUrlParts | utils/utils.py:49 | the download URL is the server, `/main/`, the name and the name's SHACL file, so the name reads back |
| UrlUtils.EnvitedDownload | utils/utils.py:39-50 | for an ENVITED-X URL with a segment, the download URL names the first non-empty piece of the path, which holds no `/` |
| UrlUtils.OtherDownload | utils/utils.py:51-53 | a redirected URL has no `#` left, and one without `#` is kept |
| UrlUtils.BeforeAbsent | utils/utils.py:42 | the text before a character that does not occur is all of it |
| UrlUtils.NoParams | utils/utils.py:42 | a path without `;` has no parameters |
| UrlUtils.SlashedPath | utils/utils.py:42 | a path of `/` and plain characters survives the parser's clean-up unchanged |
| UrlUtils.EnvitedPath | utils/utils.py:39-44 | the path of such an ENVITED-X URL is everything after the host |
| UrlUtils.NonEmptyAll | utils/utils.py:44 | filtering non-empty pieces keeps all of them when none is empty |
| UrlUtils.SlashJoin | utils/utils.py:44 | `/` followed by plain segments joined by `/` splits back into an empty piece and those segments |
| UrlUtils.EnvitedRoundTrip | utils/utils.py:37-50 | an ENVITED-X URL built from plain segments yields those segments and is redirected to the SHACL file of the first one |
| UrlUtils.SegmentsOf | utils/utils.py:42-44 | the segments of such a path are its non-empty pieces |
| UrlUtils.SlashesSplit | utils/utils.py:44 | a text of slashes splits into empty pieces only |
| UrlUtils.HostOnly | utils/utils.py:44-50 | the host followed by nothing or slashes has no segment, so no download URL (the function falls off its end) |
| UrlUtils.NetlocStops | utils/utils.py:42 | the network location stops at the first `/`, `?` or `#` |
| UrlUtils.ShaclUrl | utils/utils.py:17-22 | the SHACL file name is appended only to an ENVITED-X URL; any other URL is used as it is |
| UrlUtils.LocalShaclPathParts | utils/utils.py:13-18 | the local copy lies directly in the `shacles` folder, named by the ontology's SHACL file name |
| UrlUtils.DownloadShacle | utils/utils.py:16-33 | the program ends exactly when there is no local copy and the download fails; otherwise the local path is returned, fetched from the chosen URL exactly when no local copy existed |
| UrlUtils.GetPrefixesGet | utils/utils.py:57-63 | a prefix is kept exactly when it is bound to an ENVITED-X namespace, and it keeps the last such binding |
| UrlUtils.GetPrefixesUnique | utils/utils.py:58-62 | every prefix occurs once |
| OdrExtract.Present | meta_data_extractor/xodr/extract_odr.py:17-18 | the values that are not None, exactly |
| OdrExtract.ContainerInStr | meta_data_extractor/xodr/extract_odr.py:15-20 | the loop appends each value that is not None, prefixed by one space, in order |
| OdrExtract.SpacedFrom | meta_data_extractor/xodr/extract_odr.py:17-19 | the text of the values from a position on is that value's piece followed by the rest |
| OdrExtract.SpacedJoin | meta_data_extractor/xodr/extract_odr.py:15-20 | the text is empty when no value is present, else one space followed by the present values joined by spaces |
| OdrExtract.SpacedSplit | meta_data_extractor/xodr/extract_odr.py:15-20 | present values free of spaces are read back by splitting the text after its leading space |
| OdrExtract.HasAttribute | meta_data_extractor/xodr/extract_odr.py:257-283 | asking for one attribute asks whether the found element has it |
| OdrExtract.CheckData | meta_data_extractor/xodr/extract_odr.py:257-283 | `check_data` is true exactly when an element is found at the path and it has every requested attribute |
| OdrExtract.First | meta_data_extractor/xodr/extract_odr.py:260 | `root.find` gives the first matched element, None when there is none |
| OdrExtract.AttrValues | meta_data_extractor/xodr/extract_odr.py:64-76 | the attribute of every element, in order; KeyError at an element without it |
| OdrExtract.Distinct | meta_data_extractor/xodr/extract_odr.py:64-76 | `set` holds each value once |
| OdrExtract.SortedSet | meta_data_extractor/xodr/extract_odr.py:64-78 | `sorted(set(...))` holds each value once, in string order, and is empty only for no values |
| OdrExtract.TypesEntryMeaning | meta_data_extractor/xodr/extract_odr.py:71-78 | no entry when the first element lacks `type`; an error when another element lacks it; otherwise the types sorted, each element's type exactly once |
| OdrExtract.SpeedLimitAsWritten | meta_data_extractor/xodr/extract_odr.py:64-67 | as written: without a `max` to read the default set raises TypeError; otherwise min and max are the first and last texts of the string-sorted values |
| OdrExtract.MaxValue | meta_data_extractor/xodr/extract_odr.py:64-67 | the numeric value of a speed element's `max` |
| OdrExtract.MaxValues | meta_data_extractor/xodr/extract_odr.py:64-67 | each element's `max` value, in order |
| OdrExtract.SpeedLimitRange | meta_data_extractor/xodr/extract_odr.py:63-68 | corrected: 0 to 50 when there is no `max` to read, and the minimum never above the maximum |
| OdrExtract.SpeedLimitRangeBounds | meta_data_extractor/xodr/extract_odr.py:63-68 | the corrected range holds every element's value and both ends are reached |
| OdrExtract.TwoSpeedsAsWritten | meta_data_extractor/xodr/extract_odr.py:64-67 | of two limits whose texts sort against their values, the code takes the larger as minimum and the smaller as maximum |
| OdrExtract.SortedSetTwo | meta_data_extractor/xodr/extract_odr.py:64 | two different texts in descending string order come out swapped |
| OdrExtract.TwoSpeedsRange | meta_data_extractor/xodr/extract_odr.py:63-68 | the corrected range of two limits runs from the smaller to the larger |
| OdrExtract.SpeedLimitLexicographic | meta_data_extractor/xodr/extract_odr.py:64-67 | with limits 30 and 100 the code writes min 100 and max 30; the corrected range is 30 to 100 |
| OdrExtract.KindOf | meta_data_extractor/xodr/extract_odr.py:121-128 | a token's kind is the first of the four prefixes it starts with |
| OdrExtract.TokenValue | meta_data_extractor/xodr/extract_odr.py:122-128 | `split(prefix)[1]`: the text after the prefix, up to its next occurrence |
| OdrExtract.ParseGeoReference | meta_data_extractor/xodr/extract_odr.py:115-128 | the token loop computes the specified record |
| OdrExtract.ProjectionConcat | meta_data_extractor/xodr/extract_odr.py:119-122 | the `+proj=` values are concatenated in token order |
| OdrExtract.StepProjection | meta_data_extractor/xodr/extract_odr.py:121-122 | one token adds its projection piece |
| OdrExtract.StepField | meta_data_extractor/xodr/extract_odr.py:123-128 | only a token of a field's kind sets that field, to its value |
| OdrExtract.LastTokenWins | meta_data_extractor/xodr/extract_odr.py:120-128 | a field is unset exactly when no token has its kind, and otherwise holds the value of the last such token |
| OdrExtract.GeodeticEntries | meta_data_extractor/xodr/extract_odr.py:124-138 | the height system from `+grids=`; the EPSG code when there is one, else the projection name |
| Model3dExtract.SectionDict | meta_data_extractor/3dModel/extract_3dmodel.py:14-29 | a section's dict holds one entry per attribute, in order, each with the value found for its source key; it fails exactly when a source key is missing |
| Model3dExtract.SectionDictEntries | meta_data_extractor/3dModel/extract_3dmodel.py:14-29 | with distinct names the dict's keys are the attribute names in order and each holds its value |
| Model3dExtract.FillSection | meta_data_extractor/3dModel/extract_3dmodel.py:13-17 | an absent section leaves the attributes alone; a present one stores its dict under its target, or raises |
| Model3dExtract.PresentTargets | meta_data_extractor/3dModel/extract_3dmodel.py:13-30 | the targets written come from the sections |
| Model3dExtract.FillAllStep | meta_data_extractor/3dModel/extract_3dmodel.py:12-30 | when no block raises, each later block starts from what the earlier one wrote |
| Model3dExtract.FillSectionKeys | meta_data_extractor/3dModel/extract_3dmodel.py:17-30 | a block that does not raise adds its target when its section is present, else keeps the keys |
| Model3dExtract.FillAllKeys | meta_data_extractor/3dModel/extract_3dmodel.py:12-30 | without an exception, the attributes gain exactly the targets of the present sections, in order |
| Model3dExtract.FillAllKeeps | meta_data_extractor/3dModel/extract_3dmodel.py:12-30 | a key no section targets keeps its value |
| Model3dExtract.FillSectionWritten | meta_data_extractor/3dModel/extract_3dmodel.py:13-17 | a block that does not raise writes its own target and no other key |
| Model3dExtract.FillAllGet | meta_data_extractor/3dModel/extract_3dmodel.py:12-30 | without an exception, each section's target ends up as that section's block left it |
| Model3dExtract.Attributes.constructor | meta_data_extractor/3dModel/extract_3dmodel.py:46 | the attributes start empty |
| Model3dExtract.Attributes.AddSection | meta_data_extractor/3dModel/extract_3dmodel.py:13-30 | one block updates the attributes in place, or raises and leaves them unchanged |
| Model3dExtract.Attributes.GetMetaData | meta_data_extractor/3dModel/extract_3dmodel.py:12-30 | the three blocks in turn; an exception leaves what was written before it |
| Model3dExtract.Record | meta_data_extractor/3dModel/extract_3dmodel.py:52-55 | the record holds the did built from the uuid, the SHACL type and the attributes under the namespace key |
| Model3dExtract.ExtractMetaData | meta_data_extractor/3dModel/extract_3dmodel.py:44-58 | False (None) exactly when `get_meta_data` raises, otherwise that record of the attributes |
| Model3dExtract.SectionsDistinct | meta_data_extractor/3dModel/extract_3dmodel.py:13-30 | the three targets are distinct and each section's attribute names are too |
| Model3dExtract.MetaDataEntries | meta_data_extractor/3dModel/extract_3dmodel.py:12-30 | without an exception the attributes hold exactly the present sections' targets, each with its section's dict; an absent section adds nothing |

## Left out

- Command-line `main` functions, argument parsing, logging and `sys.exit` messages are left out of every script. They only read files, call the modelled functions and write their results. This includes the output-format choice in `xodr_routing_creator/main.py:160-197` and `create_kml`.
- File, JSON, pickle and zip I/O are not modelled. Parsed JSON, XML trees and file listings are parameters. So are the failures of opening and parsing a file in `extract_3dmodel.py`.
- Network access is a parameter: the download of SHACL files, the HTTP status that `download_shacle` checks, and reverse geocoding.
- rdflib and pyshacl graphs are not modelled. `convert_graph_to_dict`, `load_shacl_files` and `load_jsonld_file` are left out. The composer takes the shape table as given. `get_prefixes` takes the graph's namespaces as a list of pairs. The ontology creator keeps its graph as a list of triples in the order they are added; a triple added twice, which rdflib would merge into one, stays twice.
- XPath search (`find`/`findall`/`iter`) is not modelled. The matched elements are parameters.
- Floating-point arithmetic is replaced by exact reals.
- Cosine and sine of a heading are parameters (`EndPosition`), and so is the pyproj transformer.
- `proj4_to_epsg` is a parameter (`epsg`).
- The rest of `extract_odr.py`'s `get_meta_data` is not modelled: sympy elevation (lines 290-391), the OSM and bounding-box lookups, and the element counts.
- `float()` and `int()` accept plain decimal text only. Exponents, `inf`/`nan` text, underscores and surrounding whitespace are not parsed.
- `str()` of a float or a list is a parameter wherever its exact text matters.
- Python set iteration order is not modelled. `container_in_str` takes its values as a sequence in whatever order the container yields them. The sets `analyze_road_user` fills stay sets.
- uuid generation (`uuid.uuid4`, `create_uuid`) is a parameter.
- Datetime parsing is left out: `check_value_type`'s `xsd:dateTime` branch, `convert_date_time`, and `strptime` in `analyze_environment`. A parsed date is kept as its text (`JDate`).
- `eval` in `analyze_subject_vehicle_speed`, the pandas spreadsheet reading (`read_from_excel`), dynamic module import in the extractor, `is_utf16_le` and the OpenSCENARIO file loading are left out.
- Of `extract_osc.py`, only the functions named in the Model table are modelled. The scenario walks that call them (`analyze_environment`, `analyze_entities`, and the others) are not.
- XoscTags.TimeTags: classifies the hours it is given. In `analyze_environment` the `time_list` it iterates is never appended to, so in the source no time tag reaches the output.
- XoscTags: the `attributes` field of the tag value records is left out. It is never set, and `fill_tag_data` is called with the wrong number of arguments on that path.
- XoscTags.FindTag: requires non-empty keys. With an empty key, `find_tag`'s path split drops a level, and that case is not modelled.
- XodrReducerIo: `etree.SubElement` attaches the new element to its parent in place. The model returns the updated parent instead, so aliasing between elements is not captured.
- The ontology creator's `create_onotology` (file and graph plumbing) is left out. Its pure parts (`create_shacl`, `fix_shacle` and the helpers they call) are modelled.
- Loading a missing ontology on demand (`jsonLD_creator/main.py:416-456`) is left out. The shape table is taken as already loaded.
- PyStr.Lower, PyStr.Capitalize and PyStr.IsSpace cover ASCII only: Python's `str.lower`, `str.capitalize` and `str.split()` also map non-ASCII letters (such as Ä, Ö, Ü) and split on non-ASCII whitespace (such as U+00A0). Names built by `to_camel_case`, `convert_path_to_namespace` and the lower-cased key matching are therefore modelled for ASCII text only.
- OntologyCreator.CreateShacl: builds the Range2D shape from the corrected table (`sh:order` 0 for `min`, 1 for `max`), not the 0 and 0 of `create_Range2DShape`; `Range2DAsWrittenShape` shows what the table as written produces (see Findings).
- OntologyCreator.ShaclBuilder.CreateDataStructure: uses the same corrected Range2D table as `CreateShacl`.
- TrimToBox.XodrRoot holds the root's direct children only. The source collects roads with `root.findall(".//road")` and removes them with `root.remove(road)`, which raises ValueError for a road nested below another element; that case is not modelled.
- XodrReducerIo: lxml raises ValueError when a JSON key is not a valid XML tag or attribute name. The model accepts every key.
- AssetReducer.TagMapping: the `function` entry is a list of strings. A mapping whose `function` is a plain string (so that `func_name[0]` is its first character) is not modelled.
- AssetExtraction: the script path and the data folder are parameters (`scriptPath`, `subPath`). The KeyError or TypeError raised by the `params['call']` and `'data folder'` lookups, the order of those lookups, and the existence check on the script are not modelled.

## Findings

| source | as written | input that shows it | evidently intended | confidence | as-written member | corrected member |
|---|---|---|---|---|---|---|
| xodr_trim_to_box/main.py:133-134 | `Box2D(x_min, y_min, x_max, y_max)` is passed to a constructor that takes `(xMin, xMax, yMin, yMax)` (lines 17-21), so the box's x range is `x_min..y_min` and its y range is `x_max..y_max` | `--bbox 0 0 100 100` gives x range 0..0, which no box overlaps strictly, so every road is removed | the box spans `x_min..x_max` by `y_min..y_max` | not executed | TrimToBox.MainBoxAsWrittenRemovesAll | TrimToBox.MainBoxKeeps |
| meta_data_extractor/xodr/extract_odr.py:64-67 | the unique speed limits are sorted as strings, and the first and last are taken as minimum and maximum | limits "30" and "100" give minimum 100 and maximum 30 | a numeric minimum and maximum, minimum ≤ maximum | not executed | OdrExtract.SpeedLimitLexicographic | OdrExtract.SpeedLimitRange |
| meta_data_extractor/xodr/extract_odr.py:64-66 | when `check_data` fails, the default is the set `{0, 50}`, which is then indexed, raising `TypeError`; `check_data` looks only at the first match of `root.find` (line 260) | a map with no `speed` element, or whose first `speed` element has no `max` attribute | the default range 0 to 50 | not executed | OdrExtract.SpeedLimitAsWritten | OdrExtract.SpeedLimitRangeBounds |
| ontologie_creator/main.py:311-320 | `create_Range2DShape` gives both the `min` and the `max` property `sh:order 0` | any generated ontology with a `Range2D` shape | orders 0 and 1, distinct within the shape | not executed | OntologyCreator.Range2DAsWrittenShape | OntologyCreator.BuiltinOrdersDistinct |
