# QuPath server-kit and pyalgos clients, modelled in Dafny

This project models the client side of the QuPath extension that sends the
image inside a selected annotation to an external image-analysis server and
shows what comes back. The extension holds three clients:

- the **serverkit client** (`serverkit/client/Client.java`): one POST per run,
  answered by an array of typed records (`mask`, `instance_mask`, `points`,
  `boxes`, `vectors`, `image`, `tracks`, `notification`), with per-detection
  classes and measurements attached from the record's `data_params.features`;
- **PyAlgosClient**: a stateful server that gets the parameters, the image,
  a compute request, a features request and a deletion, each guarded by the
  previous reply's status, plus a one-shot run that works like the records
  run;
- the older **pyalgos Client**: one POST, and only `features` records are
  shown.

Around them the model covers:

- the connection manager (address trimming, the liveness probe);
- the Gson accessors the code relies on, with their exceptions;
- the GeoJSON path-object reader `PathObjectUtils`;
- the parameter-list builders `ParametersUtils.createParameterList` and
  `ServerKitUI.setOnAlgo`;
- the placement of decoded objects in the viewed region;
- the merge of result classes into the host's available classes
  (`updateClassifications`).

Java exceptions are values of a `Result` type, named after the Java
exception. Host code the clients call but do not define is passed in as a
function parameter:

- QuPath's JSON-to-PathObject deserialiser is `ObjectDecoder`;
- the ImageIO TIFF reader is `TiffDecoder`;
- `java.net.URL`'s address check is `isValidUrl`.

The HTTP server is a `ScriptedServer` that records every request and answers
from a list of replies. Running out of replies stands for a transport
exception. Each run method is proved against a specification function of
the replies: the function fixes which requests are sent, how the run ends,
and what is displayed. Lemmas then state the protocol properties of that
function.

Files:

| file | contents |
|---|---|
| `wrappers.dfy` | Option, Result, the Java exceptions |
| `json.dfy` | Gson values and accessors |
| `geometry.dfy` | points, regions, path objects, placement |
| `streams.dfy` | the "map, stop at first exception, drop nulls" loop shape and its step lemmas |
| `path_object_utils.dfy` | PathObjectUtils |
| `connection.dfy` | launchHttpClient, isConnected |
| `transport.dfy` | requests, replies, the scripted server |
| `parameters.dfy` | parameter descriptors and the shared `switch` |
| `parameters_utils.dfy` | createParameterList |
| `serverkit_ui.dfy` | setOnConnect, getParameters, setOnAlgo |
| `classifications.dfy` | updateClassifications |
| `host.dfy` | displayResult, payload, error details, getAlgos |
| `features_records.dfy` | the one-request runs that show `features` records |
| `serverkit_client.dfy` | the serverkit record decoder and run |
| `pyalgos_client.dfy` | PyAlgosClient's multi-request run, one-shot run, getAlgos |
| `pyalgos_legacy_client.dfy` | the older pyalgos Client |

## Model

| member | source | states |
|---|---|---|
| Json.Get | src/main/java/qupath/ext/pyalgos/client/ParametersUtils.java:31-35 | A lookup finds nothing exactly when the key is absent; otherwise it finds a member stored under that key. |
| Json.GetAppend | src/main/java/qupath/ext/pyalgos/client/ParametersUtils.java:31-35 | A lookup in two runs of members finds the first run's member when the key is there, else the second run's. |
| Json.Require | src/main/java/qupath/ext/pyalgos/client/ParametersUtils.java:31-32 | `get(key)` that is then used succeeds exactly when the key is present; a missing key is a NullPointerException. |
| Json.AsString | src/main/java/qupath/ext/pyalgos/client/ParametersUtils.java:31-32 | A string reads as itself; an object or JSON null is an UnsupportedOperationException. A one-element array reads as its element; an array of any other length is IllegalStateException. |
| Json.Int32 | src/main/java/qupath/ext/pyalgos/client/ParametersUtils.java:41 | The result fits a Java int, is congruent to the input modulo 2^32, and equals the input when the input already fits. |
| Json.TruncateTowardZero | src/main/java/qupath/ext/pyalgos/client/ParametersUtils.java:41 | Rounds toward zero: within one below a non-negative input, within one above a negative one. |
| Json.AsInt | src/main/java/qupath/ext/pyalgos/client/ParametersUtils.java:41 | getAsInt never yields a value outside the Java int range. |
| Json.AsStrings | src/main/java/qupath/ext/pyalgos/client/ParametersUtils.java:49-53 | Reading succeeds exactly when every element reads as a string; the result has one string per element, in order. |
| Json.AsStringsPrefixFailure | src/main/java/qupath/ext/pyalgos/client/ParametersUtils.java:51-53 | Once a prefix fails, the whole reading fails with the same exception. |
| Json.FillStrings | src/main/java/qupath/ext/pyalgos/client/ParametersUtils.java:49-53 | The copy loop into a fresh String[] gives exactly AsStrings of the array. |
| Json.Put | src/main/java/qupath/ext/pyalgos/client/PyAlgosClient.java:338-366 | After a put, the key holds the new value and every other key is unchanged. |
| Json.PutKeys | src/main/java/qupath/ext/pyalgos/client/PyAlgosClient.java:338-366 | A put keeps the key order for an existing key and appends a new key last. |
| Geometry.PlaceRoundTrip | src/main/java/qupath/ext/serverkit/client/Client.java:262-265 | With a non-zero downsample, the translate-then-scale map and its inverse undo each other in both orders. |
| Geometry.IdentityExactly | src/main/java/qupath/ext/serverkit/client/Client.java:285-287 | The isIdentity shortcut holds exactly when the placement map moves no point. |
| Geometry.PlaceObject | src/main/java/qupath/ext/serverkit/client/Client.java:284-290 | Every vertex is moved by the map and the plane becomes the region's plane when it has one; kind, class, measurements and detection flag are kept. |
| Geometry.PlaceObjectIdentity | src/main/java/qupath/ext/pyalgos/client/PyAlgosClient.java:157-161 | With the identity map and the same plane, placement returns the object unchanged. |
| Geometry.PlaceAll | src/main/java/qupath/ext/pyalgos/client/PyAlgosClient.java:155-164 | One placed object per decoded object, in the same order. |
| Geometry.PlaceEach | src/main/java/qupath/ext/pyalgos/client/PyAlgosClient.java:155-164 | The placement loop yields PlaceObject of each input at its index, which is PlaceAll. |
| PathObjectUtils.ParsePathObject | src/main/java/qupath/ext/pyalgos/client/PathObjectUtils.java:58-65 | A non-object element gives null; an object gives what the host deserialiser makes of it. |
| PathObjectUtils.ParseElement | src/main/java/qupath/ext/pyalgos/client/Client.java:239 | The strict reading (`getAsJsonObject`) throws IllegalStateException on a non-object; the lenient one gives null. |
| PathObjectUtils.ParseElements | src/main/java/qupath/ext/pyalgos/client/PathObjectUtils.java:33-38 | A successful stream never yields more objects than it has elements. |
| PathObjectUtils.ParseElementsOk | src/main/java/qupath/ext/pyalgos/client/PathObjectUtils.java:33-38 | The stream succeeds exactly when every element is read without an exception. |
| PathObjectUtils.ParseElementsAppend | src/main/java/qupath/ext/pyalgos/client/PathObjectUtils.java:33-38 | Reading a concatenation reads each part in turn: order is kept and the first failure wins. |
| PathObjectUtils.ParseElementsSingle | src/main/java/qupath/ext/pyalgos/client/PathObjectUtils.java:33-38 | A one-element stream gives that element's object, nothing for null, or its exception. |
| PathObjectUtils.LenientSkipsNonObjects | src/main/java/qupath/ext/pyalgos/client/PathObjectUtils.java:33-38 | A lenient stream of non-objects gives the empty list. |
| PathObjectUtils.StrictRejectsNonObject | src/main/java/qupath/ext/pyalgos/client/Client.java:237-241 | In a strict stream, the first non-object after readable elements fails the whole reading with IllegalStateException. |
| PathObjectUtils.LenientDropsNonObject | src/main/java/qupath/ext/pyalgos/client/PathObjectUtils.java:33-38 | In a lenient stream, a non-object element is dropped: the result equals the reading without it. |
| PathObjectUtils.ParseElementsAllObjects | src/main/java/qupath/ext/pyalgos/client/PathObjectUtils.java:33-38 | Elements that all decode give exactly those objects, one each, in input order, in both readings. |
| PathObjectUtils.ParseShape | src/main/java/qupath/ext/pyalgos/client/PathObjectUtils.java:33-46 | An array is streamed leniently; a single object gives at most one object; any other shape gives an empty list, never null. |
| PathObjectUtils.Unwrapped | src/main/java/qupath/ext/pyalgos/client/PathObjectUtils.java:30-32 | An object with a `features` member is replaced by that member's value; anything else is kept. |
| PathObjectUtils.ParsePathObjects | src/main/java/qupath/ext/pyalgos/client/PathObjectUtils.java:27-47 | parsePathObjects is the shape dispatch of the unwrapped body: at most one object per array element, and at most one for a non-array. |
| Connection.TrimStart | src/main/java/qupath/ext/serverkit/client/Client.java:82 | The index of the first kept character: everything before it is a control character or space, and it is not. |
| Connection.TrimEnd | src/main/java/qupath/ext/serverkit/client/Client.java:82 | The end of the kept part: everything after it is a control character or space, and the character before it is not. |
| Connection.Trim | src/main/java/qupath/ext/serverkit/client/Client.java:82 | The trimmed text is empty or starts and ends with a character above the space, and it is no longer than the input. |
| Connection.TrimRemovesOnlyBlanks | src/main/java/qupath/ext/serverkit/client/Client.java:82 | The trimmed text is a slice of the input with only control characters and spaces around it. |
| Connection.TrimIdempotent | src/main/java/qupath/ext/serverkit/client/Client.java:82 | Trimming twice is trimming once. |
| Connection.NormaliseAddress | src/main/java/qupath/ext/serverkit/client/Client.java:82-85 | The stored URL is the trimmed address with one trailing slash removed when it has one. |
| Connection.NormaliseStripsAtMostOneSlash | src/main/java/qupath/ext/serverkit/client/Client.java:83-85 | An address ending in "//" keeps one trailing slash. |
| Connection.NormaliseFixesNormalAddresses | src/main/java/qupath/ext/pyalgos/client/PyAlgosClient.java:66-69 | An address that is already trimmed and has no trailing slash is stored as it is. |
| Connection.HelloImpliesConnected | src/main/java/qupath/ext/pyalgos/client/PyAlgosHttpClient.java:138-145 | The "hello" liveness test implies the status-only one of the two Client classes. |
| Connection.ClientState.LaunchHttpClient | src/main/java/qupath/ext/serverkit/client/Client.java:81-90 | An invalid URL is MalformedURLException and leaves the client alone; otherwise the URL is stored, and the launch succeeds exactly when the probe connects (an Err is then NotConnected). |
| Transport.ReplyAt | src/main/java/qupath/ext/pyalgos/client/PyAlgosClient.java:451-512 | A reply exists exactly when the script has one at that index; otherwise it is a transport exception. |
| Transport.ScriptedServer.Exchange | src/main/java/qupath/ext/pyalgos/client/PyAlgosHttpClient.java:67-129 | Each exchange appends its request to the log and consumes the next reply. |
| Parameters.OptionalString | src/main/java/qupath/ext/pyalgos/client/ParametersUtils.java:34-35 | An absent member is null; JSON null is UnsupportedOperationException; a present value is the member's string. |
| Parameters.RequiredString | src/main/java/qupath/ext/pyalgos/client/ParametersUtils.java:31-32 | A missing member is NullPointerException; a present one is its getAsString. |
| Parameters.Present | src/main/java/qupath/ext/pyalgos/client/ParametersUtils.java:33 | Dereferencing a null default is NullPointerException, and only then. |
| Parameters.MakeParam | src/main/java/qupath/ext/pyalgos/client/ParametersUtils.java:36-57 | A built parameter is well-formed (int fits a Java int, choices non-empty and defaulting to the first), of the selected widget, with the given key, prompt, description and unit. A missing default, a missing choice array or an empty one is the matching exception; choices are read element by element. |
| Parameters.AddParam | src/main/java/qupath/ext/pyalgos/client/ParametersUtils.java:36-57 | One `case` as run, with the choice copy loop, equals MakeParam. |
| Parameters.StringsRoundTrip | src/main/java/qupath/ext/pyalgos/client/ParametersUtils.java:49-53 | Reading back a JSON array of strings gives the strings. |
| Parameters.MakeParamRoundTrip | src/main/java/qupath/ext/pyalgos/client/ParametersUtils.java:36-57 | Every well-formed parameter is rebuilt exactly from its own default and choice list. |
| Parameters.PutParam | src/main/java/qupath/ext/pyalgos/client/ParametersUtils.java:36-57 | One `add` on a ParameterList (a LinkedHashMap by key): a new key goes last; an existing key keeps its place and takes the new parameter; every other entry is kept; keys stay distinct. |
| Parameters.PutAll | src/main/java/qupath/ext/pyalgos/client/ParametersUtils.java:30-58 | Successive `add` calls: the list only grows, each entry is an old entry in its old place or an added parameter, title entries stay where they are, and keys stay distinct. |
| Parameters.PutAllDistinct | src/main/java/qupath/ext/pyalgos/client/ParametersUtils.java:30-58 | When no two parameters share a name, the `add` calls simply append them in order. |
| Parameters.RepeatedKeyReplaces | src/main/java/qupath/ext/pyalgos/client/ParametersUtils.java:30-58 | A second parameter with an existing name leaves one entry: the later parameter, in the earlier one's place. |
| ParametersUtils.TypeName | src/main/java/qupath/ext/pyalgos/client/ParametersUtils.java:36-49 | Every widget has a type name that the switch maps back to it. |
| ParametersUtils.ParseParameter | src/main/java/qupath/ext/pyalgos/client/ParametersUtils.java:31-57 | Missing "name", "display_name" or "type" throws; an unknown type is skipped; a missing default for a scalar throws. A built parameter is well-formed and carries the description's name, display name, description and (for numbers) unit, of the type's widget. |
| ParametersUtils.UnknownTypeSkipped | src/main/java/qupath/ext/pyalgos/client/ParametersUtils.java:36-57 | A description of unknown type leaves the list as it would be without it. |
| ParametersUtils.OnePerDescription | src/main/java/qupath/ext/pyalgos/client/ParametersUtils.java:30-58 | When every description is recognised, the list holds one parameter per description, at the same position. |
| ParametersUtils.FailsIffSomeFails | src/main/java/qupath/ext/pyalgos/client/ParametersUtils.java:30-58 | The loop completes exactly when every description reads without an exception. |
| ParametersUtils.ParameterListOf | src/main/java/qupath/ext/pyalgos/client/ParametersUtils.java:22-58 | A null or empty list gives an empty ParameterList, without the title; otherwise a given title comes first. The list never holds two entries with the same name. |
| ParametersUtils.ParameterListWellFormed | src/main/java/qupath/ext/pyalgos/client/ParametersUtils.java:22-60 | Every entry after the title is a well-formed parameter. |
| ParametersUtils.ReadParameter | src/main/java/qupath/ext/pyalgos/client/ParametersUtils.java:31-57 | The loop body, reading fields in the source's order, equals ParseParameter. |
| ParametersUtils.CreateParameterList | src/main/java/qupath/ext/pyalgos/client/ParametersUtils.java:22-60 | createParameterList as run, with successive adds, equals ParameterListOf. |
| ParametersUtils.AddEach | src/main/java/qupath/ext/pyalgos/client/ParametersUtils.java:30-58 | The loop adds the parameters of all descriptions, by name, to what the list held, or stops with the first exception. |
| ParametersUtils.ParseDescribe | src/main/java/qupath/ext/pyalgos/client/ParametersUtils.java:31-57 | A well-formed parameter, written as a description and read back, is the same parameter. |
| ParametersUtils.ParseDescribeAll | src/main/java/qupath/ext/pyalgos/client/ParametersUtils.java:30-58 | Well-formed parameters, described and read back by the loop, are the same parameters in order. |
| ParametersUtils.CreateRoundTrip | src/main/java/qupath/ext/pyalgos/client/ParametersUtils.java:22-60 | A non-empty list of well-formed parameters with distinct names, described and read back, gives the title (if any) followed by the same parameters in order. |
| ParametersUtils.RepeatedNameReplaces | src/main/java/qupath/ext/pyalgos/client/ParametersUtils.java:22-60 | Two descriptions with the same name give one entry after the title: the later parameter. |
| ParametersUtils.RepeatedEntryReplaces | src/main/java/qupath/ext/pyalgos/client/ParametersUtils.java:22-60 | Any two entries read back as parameters with one name leave only the later parameter after the title. |
| ServerKitUI.SetOnConnect | src/main/java/qupath/ext/serverkit/gui/ServerKitUI.java:73-110 | A cancelled dialog, or a null or empty address, leaves the client alone. Otherwise the client is launched: an invalid URL reports "Invalid URL"; a valid one is stored, and success is reported exactly when the probe connects. |
| ServerKitUI.WidgetName | src/main/java/qupath/ext/serverkit/gui/ServerKitUI.java:187-208 | Every widget has a widget-type name the switch maps back to it. |
| ServerKitUI.ParseEntry | src/main/java/qupath/ext/serverkit/gui/ServerKitUI.java:180-209 | A non-object entry is IllegalStateException; a missing title is NullPointerException; an unknown widget is skipped. A built parameter is well-formed, unit-less, keyed by the entry's name, with its title and description. |
| ServerKitUI.UnknownWidgetSkipped | src/main/java/qupath/ext/serverkit/gui/ServerKitUI.java:187-208 | An entry of unknown widget type leaves the list as it would be without it. |
| ServerKitUI.SchemaParametersWellFormed | src/main/java/qupath/ext/serverkit/gui/ServerKitUI.java:180-209 | Every parameter a schema yields is well-formed and has no unit. |
| ServerKitUI.ReadEntry | src/main/java/qupath/ext/serverkit/gui/ServerKitUI.java:181-208 | The loop body equals ParseEntry. |
| ServerKitUI.SchemaParameters | src/main/java/qupath/ext/serverkit/gui/ServerKitUI.java:180-209 | The parameters a schema yields never share a name. |
| ServerKitUI.FillParameterList | src/main/java/qupath/ext/serverkit/gui/ServerKitUI.java:180-209 | The loop over the schema's entries, adding each by name, equals the schema reading. |
| ServerKitUI.ParametersSchema | src/main/java/qupath/ext/serverkit/client/Client.java:185-188 | A non-JSON body is a syntax error; a result is the object stored under the body's "properties". |
| ServerKitUI.OnAlgo | src/main/java/qupath/ext/serverkit/gui/ServerKitUI.java:156-218 | Not connected exactly when only logged. It runs directly exactly for an empty schema. A dialog opens on the schema's parameters; a logged error comes from the schema or its reading. |
| ServerKitUI.SetOnAlgo | src/main/java/qupath/ext/serverkit/gui/ServerKitUI.java:156-218 | setOnAlgo as run equals OnAlgo. |
| ServerKitUI.ParseDescribeEntry | src/main/java/qupath/ext/serverkit/gui/ServerKitUI.java:180-209 | A well-formed unit-less parameter, published as a schema entry and read back, is the same parameter. |
| ServerKitUI.ParseDescribeSchema | src/main/java/qupath/ext/serverkit/gui/ServerKitUI.java:180-209 | The entries of a schema published for unit-less parameters read back, one by one, as those parameters in order. |
| ServerKitUI.SchemaRoundTrip | src/main/java/qupath/ext/serverkit/gui/ServerKitUI.java:180-209 | A schema published for unit-less parameters with distinct names (one JSON object's keys) reads back as the same parameters in order. |
| Classifications.BelowIrreflexive | src/main/java/qupath/ext/pyalgos/client/PyAlgosClient.java:624-647 | The String.compareTo order used by Collections.sort is irreflexive. |
| Classifications.BelowTransitive | src/main/java/qupath/ext/pyalgos/client/PyAlgosClient.java:624-647 | The String.compareTo order is transitive. |
| Classifications.BelowTotal | src/main/java/qupath/ext/pyalgos/client/PyAlgosClient.java:624-647 | Two different strings are ordered one way or the other. |
| Classifications.Insert | src/main/java/qupath/ext/pyalgos/client/PyAlgosClient.java:624-647 | Inserting into a strictly sorted list keeps it strictly sorted and adds exactly that name. |
| Classifications.SortedNames | src/main/java/qupath/ext/pyalgos/client/PyAlgosClient.java:625-632 | The sorted set of represented base classes: strictly sorted, and holding exactly the represented names. |
| Classifications.AsClasses | src/main/java/qupath/ext/pyalgos/client/PyAlgosClient.java:631-632 | One single-level class per name, in order. |
| Classifications.RemoveFirstNull | src/main/java/qupath/ext/pyalgos/client/PyAlgosClient.java:639-640 | List.remove(null) removes one null when there is one and keeps every other entry. |
| Classifications.RemoveAll | src/main/java/qupath/ext/pyalgos/client/PyAlgosClient.java:645-646 | List.removeAll keeps exactly the entries the other list lacks. |
| Classifications.AvailableClasses.UpdateClassifications | src/main/java/qupath/ext/pyalgos/client/PyAlgosClient.java:624-647 | The list of available classes becomes Updated of the old list and the results. |
| Classifications.UpdatePreservesPrefix | src/main/java/qupath/ext/serverkit/client/Client.java:581-604 | Existing entries keep their places: the old list is a prefix of the new one. |
| Classifications.AppendsOnlyMissing | src/main/java/qupath/ext/serverkit/client/Client.java:581-604 | Only classes the list lacked are appended, and each is IGNORE or the base class of a represented result. |
| Classifications.UnclassifiedLeavesList | src/main/java/qupath/ext/serverkit/client/Client.java:581-604 | With no classified result, nothing changes. |
| Classifications.UpdateCovers | src/main/java/qupath/ext/serverkit/client/Client.java:581-604 | After a merge with any classified result, IGNORE and every represented base class are available. |
| Classifications.ShortcutAgrees | src/main/java/qupath/ext/pyalgos/client/Client.java:389-412 | The early return is only a shortcut: the general branch would have appended nothing either. |
| Classifications.UpdateIdempotent | src/main/java/qupath/ext/pyalgos/client/Client.java:389-412 | Merging the same results twice changes nothing the second time. |
| Classifications.SortedSingleton | src/main/java/qupath/ext/pyalgos/client/PyAlgosClient.java:631-632 | A strictly sorted list holding exactly one name is that name. |
| Classifications.IgnoreAppendedTwice | src/main/java/qupath/ext/pyalgos/client/PyAlgosClient.java:624-647 | When the only result class is "Ignore*" and the list lacks it, IGNORE is appended twice. |
| Host.AsDetections | src/main/java/qupath/ext/pyalgos/client/PyAlgosClient.java:602-605 | One detection copy per result, in order. |
| Host.AfterDisplaysAppend | src/main/java/qupath/ext/pyalgos/client/PyAlgosClient.java:599-615 | One more record adds one display, or nothing when the record displays nothing. |
| Host.DisplaysOnlyAppend | src/main/java/qupath/ext/serverkit/client/Client.java:526-544 | Displaying never removes or reorders: the old children and the old classes are prefixes of the new ones. |
| Host.Viewer.DisplayResult | src/main/java/qupath/ext/serverkit/client/Client.java:526-544 | The children gain a detection copy of each result, and the class list becomes the merged list. |
| Host.Payload | src/main/java/qupath/ext/serverkit/client/Client.java:243-245 | The payload holds the image text under "image" and every other parameter unchanged. |
| Host.BodyObject | src/main/java/qupath/ext/pyalgos/client/PyAlgosClient.java:95-97 | A non-JSON body is JsonSyntaxException; a JSON body is read as an object. |
| Host.BodyArray | src/main/java/qupath/ext/serverkit/client/Client.java:256 | A non-JSON body is JsonSyntaxException; a JSON body is read as an array. |
| Host.ErrorDetail | src/main/java/qupath/ext/serverkit/client/Client.java:202-211 | A missing detail is null. A body that is not an object, or a detail that is not a string, makes the logging itself throw. |
| Host.WarningDetail | src/main/java/qupath/ext/pyalgos/client/PyAlgosClient.java:307-316 | The warning detail is required: a missing one is NullPointerException. |
| Host.AlgoNames | src/main/java/qupath/ext/serverkit/client/Client.java:173-183 | The names are the "services" array's elements read as strings, one per element, in order; a missing "services" is NullPointerException. |
| Host.AlgoNamesRoundTrip | src/main/java/qupath/ext/pyalgos/client/PyAlgosClient.java:167-179 | A server listing its services gets the same names back, in order, whatever the status. |
| Host.GetAlgos | src/main/java/qupath/ext/serverkit/client/Client.java:173-183 | Exactly one GET is sent, and the result is AlgoNames of its reply or the transport exception. |
| Host.Refusal | src/main/java/qupath/ext/serverkit/client/Client.java:250-253 | A refused run ends Refused with the status and detail exactly when the detail reads; otherwise it ends with the detail's exception. |
| FeaturesRecords.FeaturesRecordTag | src/main/java/qupath/ext/pyalgos/client/Client.java:227-260 | A record reads only when it is an object with a string "type". It shows objects exactly when the type is "features"; any other type shows nothing. |
| FeaturesRecords.FeaturesInOrder | src/main/java/qupath/ext/pyalgos/client/Client.java:233-260 | A features record of decodable objects shows one placed object per element, in order, in both readings. |
| FeaturesRecords.StrictAndLenientFeatures | src/main/java/qupath/ext/pyalgos/client/PyAlgosClient.java:383-438 | The strict (legacy) reading fails with IllegalStateException at a non-object; the lenient (one-shot) reading drops it. |
| FeaturesRecords.OtherTagsShowNothing | src/main/java/qupath/ext/pyalgos/client/Client.java:227-233 | Every tag other than "features" is a no-op, whatever its data. |
| FeaturesRecords.ReadFeaturesRecord | src/main/java/qupath/ext/pyalgos/client/Client.java:227-260 | The loop body equals FeaturesRecord. |
| FeaturesRecords.RecordsRequest | src/main/java/qupath/ext/pyalgos/client/Client.java:194-219 | One POST to the route, carrying the image text under "image" and the parameters unchanged. |
| FeaturesRecords.OnlyFeaturesDisplayed | src/main/java/qupath/ext/pyalgos/client/Client.java:191-277 | A refused or failed request displays nothing. The displayed records are exactly the handled records, each being its own reading, with objects exactly for "features" records. |
| FeaturesRecords.RunStopsAtFailingRecord | src/main/java/qupath/ext/pyalgos/client/Client.java:227-275 | The first record that throws ends the run with its exception, after exactly the records before it. |
| FeaturesRecords.ShowRecords | src/main/java/qupath/ext/pyalgos/client/PyAlgosClient.java:383-438 | The loop handles records until the first exception and displays each finished record in order. |
| FeaturesRecords.Run | src/main/java/qupath/ext/pyalgos/client/Client.java:191-277 | Exactly one POST with a selection and none without. The outcome and records are RunSpec; the host ends in the state of those displays. |
| ServerkitClient.SeverityOf | src/main/java/qupath/ext/serverkit/client/Client.java:366-380 | "error" and "warning" are recognised, in both directions; every other level is information. |
| ServerkitClient.NotificationLevel | src/main/java/qupath/ext/serverkit/client/Client.java:366-380 | The level is "info" without a "level" data parameter, and its string otherwise. |
| ServerkitClient.DataArray | src/main/java/qupath/ext/serverkit/client/Client.java:277-292 | A missing "data" is NullPointerException; a present one is read as an array. |
| ServerkitClient.MemberObject | src/main/java/qupath/ext/serverkit/client/Client.java:314 | It succeeds exactly on a present object member. A missing one is NullPointerException; a wrong shape is ClassCastException. |
| ServerkitClient.MemberArray | src/main/java/qupath/ext/serverkit/client/Client.java:315 | The same, for an array member. |
| ServerkitClient.FirstPositionOfFeature | src/main/java/qupath/ext/serverkit/client/Client.java:313-317 | A points record reads the first position of a MultiPoint feature. |
| ServerkitClient.PointDetection | src/main/java/qupath/ext/serverkit/client/Client.java:313-329 | An element reads exactly when its first position does. It gives an unclassified one-point detection at the placed position, on the region's plane. |
| ServerkitClient.PointDetections | src/main/java/qupath/ext/serverkit/client/Client.java:309-331 | A points record succeeds exactly when every element reads, giving one detection per element in order. |
| ServerkitClient.ReadPoints | src/main/java/qupath/ext/serverkit/client/Client.java:309-331 | The points loop equals PointDetections. |
| ServerkitClient.Column | src/main/java/qupath/ext/serverkit/client/Client.java:392-400 | Every failure while decoding a measurement column is a RuntimeException. |
| ServerkitClient.AttachEntry | src/main/java/qupath/ext/serverkit/client/Client.java:386-401 | A non-class feature fails only with RuntimeException; an attached detection keeps its region and detection flag. |
| ServerkitClient.AttachKeys | src/main/java/qupath/ext/serverkit/client/Client.java:386-401 | Without a "class" feature, the inner loop fails only with RuntimeException. |
| ServerkitClient.AttachAll | src/main/java/qupath/ext/serverkit/client/Client.java:384-405 | It succeeds exactly when every detection's inner loop does, giving each detection its own attachment, in order. |
| ServerkitClient.AttachKeysKeepsRoi | src/main/java/qupath/ext/serverkit/client/Client.java:384-405 | Attaching features never moves a detection or changes its kind. |
| ServerkitClient.AttachEntryClass | src/main/java/qupath/ext/serverkit/client/Client.java:389-390 | A non-class feature keeps the class; "class" sets it from the idx-th label, which must exist. |
| ServerkitClient.AttachKeysKeepsClass | src/main/java/qupath/ext/serverkit/client/Client.java:386-401 | Without a "class" feature, the class is kept. |
| ServerkitClient.AttachKeysClass | src/main/java/qupath/ext/serverkit/client/Client.java:389-390 | A "class" feature holds a string label at the detection's index, and that label becomes the class. |
| ServerkitClient.AttachEntryMeasurement | src/main/java/qupath/ext/serverkit/client/Client.java:392-400 | A feature touches only its own measurement, set to its idx-th decoded value when there is one. |
| ServerkitClient.AttachKeysKeepsOthers | src/main/java/qupath/ext/serverkit/client/Client.java:392-400 | Names that are not features keep their measurements. |
| ServerkitClient.AttachKeysMeasurement | src/main/java/qupath/ext/serverkit/client/Client.java:392-400 | Every non-class feature decodes, and its idx-th value, when there is one, becomes the measurement of its name. |
| ServerkitClient.ShortLabelsFail | src/main/java/qupath/ext/serverkit/client/Client.java:389-390 | A class array shorter than the detections makes the whole attachment fail. |
| ServerkitClient.AttachKeysStops | src/main/java/qupath/ext/serverkit/client/Client.java:386-401 | Once a feature fails, the inner loop has stopped. |
| ServerkitClient.AttachAllStops | src/main/java/qupath/ext/serverkit/client/Client.java:384-405 | Once a detection fails, the outer loop has stopped. |
| ServerkitClient.AttachOne | src/main/java/qupath/ext/serverkit/client/Client.java:386-401 | The inner loop equals AttachKeys. |
| ServerkitClient.AttachAllStep | src/main/java/qupath/ext/serverkit/client/Client.java:384-405 | The outer loop's step at one detection extends the result by that detection's attachment. |
| ServerkitClient.AttachFeatures | src/main/java/qupath/ext/serverkit/client/Client.java:384-405 | The nested loops equal AttachAll. |
| ServerkitClient.RecordIsDispatched | src/main/java/qupath/ext/serverkit/client/Client.java:258-384 | A written record without features, or whose dispatch throws, decodes to its dispatch. |
| ServerkitClient.DispatchKinds | src/main/java/qupath/ext/serverkit/client/Client.java:270-381 | Only the five detection tags yield detections and show no message; "image" and "tracks" say they are unsupported. |
| ServerkitClient.RecordFollowsDispatch | src/main/java/qupath/ext/serverkit/client/Client.java:258-405 | A decoded record is an object with data_params and a string type. It shows what its dispatch shows, with as many detections. |
| ServerkitClient.DetectionsOnlyFromDetectionKinds | src/main/java/qupath/ext/serverkit/client/Client.java:258-405 | Only the detection tags yield detections, whatever features a record carries. |
| ServerkitClient.NotificationRecord | src/main/java/qupath/ext/serverkit/client/Client.java:366-380 | A notification record shows its text at the severity its level names, and yields no detection. |
| ServerkitClient.MaskSkipsNonObjects | src/main/java/qupath/ext/serverkit/client/Client.java:277-292 | A "mask" record of non-objects yields nothing and throws nothing. |
| ServerkitClient.StrictKindsRejectNonObjects | src/main/java/qupath/ext/serverkit/client/Client.java:293-365 | In "instance_mask", "boxes" and "vectors" records, a non-object after readable elements is IllegalStateException. |
| ServerkitClient.MultiPointFeatures | src/main/java/qupath/ext/serverkit/client/Client.java:309-331 | One MultiPoint feature per point list, in order. |
| ServerkitClient.PointsRecordDecodes | src/main/java/qupath/ext/serverkit/client/Client.java:309-331 | A points record of readable elements decodes to their point detections and shows no message. |
| ServerkitClient.PointsRecord | src/main/java/qupath/ext/serverkit/client/Client.java:309-331 | A points record of MultiPoint features yields one detection per feature, in order, at each feature's placed first position. |
| ServerkitClient.ReadRecord | src/main/java/qupath/ext/serverkit/client/Client.java:258-405 | The loop body equals DecodeRecord. It also returns the message the record's switch showed, even when the features step then throws. |
| ServerkitClient.RecordMessage | src/main/java/qupath/ext/serverkit/client/Client.java:258-384 | A record that fails before or in its switch shows nothing. A record that decodes shows its outcome's message. |
| ServerkitClient.FeaturesFailureAfterMessage | src/main/java/qupath/ext/serverkit/client/Client.java:366-385 | When the switch finished and "features" is not an object, the record throws IllegalStateException, but its message was already shown. |
| ServerkitClient.NotificationThenFeaturesFailure | src/main/java/qupath/ext/serverkit/client/Client.java:366-385 | A notification whose "features" is not an object shows its text at its severity, then throws IllegalStateException. |
| ServerkitClient.NotificationSwitched | src/main/java/qupath/ext/serverkit/client/Client.java:366-380 | A notification record with a readable level gets through the switch, showing its text at that level's severity and yielding no detection. |
| ServerkitClient.NotificationDispatch | src/main/java/qupath/ext/serverkit/client/Client.java:366-380 | The notification case shows the record's "data" text at the severity its level names. |
| ServerkitClient.ProcessRequest | src/main/java/qupath/ext/serverkit/client/Client.java:243-248 | A POST to "/"+algo+"/process" whose JSON object holds the image text under "image". |
| ServerkitClient.Batches | src/main/java/qupath/ext/serverkit/client/Client.java:408 | Every decoded record is displayed, even one without detections. |
| ServerkitClient.RunFinishes | src/main/java/qupath/ext/serverkit/client/Client.java:213-410 | A run finishes exactly when the server answers Created with an array whose records all decode. It has then handled every record, in order. |
| ServerkitClient.NothingBeforeRecords | src/main/java/qupath/ext/serverkit/client/Client.java:226-253 | A run without a selection, or with a refused request, handles no record; a refusal is logged with its detail. |
| ServerkitClient.ShowRecords | src/main/java/qupath/ext/serverkit/client/Client.java:256-409 | The loop decodes records until the first exception and displays each decoded record in order. When a record throws, it also returns the message that record already showed. |
| ServerkitClient.Run | src/main/java/qupath/ext/serverkit/client/Client.java:213-410 | Exactly one POST with a selection and none without. The result is RunSpec, and the message is RunMessage; the host ends in the state of displaying each handled record. |
| ServerkitClient.RunMessageOnlyOnFailure | src/main/java/qupath/ext/serverkit/client/Client.java:256-409 | A run reports a message of a failing record only when that record's exception ended the run. That record comes right after the handled ones, and the message is the one its switch showed. |
| PyAlgosClient.ParametersRequest | src/main/java/qupath/ext/pyalgos/client/PyAlgosHttpClient.java:227-230 | A POST to "/image/"+algo+"/parameters" carrying the parameters under "parameters". |
| PyAlgosClient.ImageRequest | src/main/java/qupath/ext/pyalgos/client/PyAlgosHttpClient.java:214-216 | A POST of the raw image bytes to "/image_bytes". |
| PyAlgosClient.ComputeRequest | src/main/java/qupath/ext/pyalgos/client/PyAlgosHttpClient.java:253-255 | A POST of "result" to "/image/"+algo+"/result". |
| PyAlgosClient.FeaturesRequest | src/main/java/qupath/ext/pyalgos/client/PyAlgosHttpClient.java:301-303 | A GET of "/image/"+algo+"/result/features". |
| PyAlgosClient.Submitted | src/main/java/qupath/ext/pyalgos/client/PyAlgosClient.java:454-460 | The parameters request is sent exactly when there are parameters. |
| PyAlgosClient.Endpoints | src/main/java/qupath/ext/pyalgos/client/PyAlgosClient.java:486-497 | The endpoints are the "output_endpoints" array of the computation's reply, one string per element. |
| PyAlgosClient.FeatureObjects | src/main/java/qupath/ext/pyalgos/client/PyAlgosClient.java:144-165 | It succeeds exactly when parsePathObjects does, giving each parsed object placed in the region, in order. |
| PyAlgosClient.ParseResponseToPathObjectList | src/main/java/qupath/ext/pyalgos/client/PyAlgosClient.java:144-165 | The loop equals FeatureObjects. |
| PyAlgosClient.Delete | src/main/java/qupath/ext/pyalgos/client/PyAlgosClient.java:507-511 | The deletion is sent last, and what was shown stays shown. |
| PyAlgosClient.Tail | src/main/java/qupath/ext/pyalgos/client/PyAlgosClient.java:479-511 | From the computation on, the deletion comes last and nowhere else. |
| PyAlgosClient.Plan | src/main/java/qupath/ext/pyalgos/client/PyAlgosClient.java:451-512 | A full run's requests end with the single deletion. |
| PyAlgosClient.ComputeSent | src/main/java/qupath/ext/pyalgos/client/PyAlgosClient.java:479-511 | From the computation on, the run sends a non-empty prefix of the tail. It goes on only after an accepted, readable computation; shown features imply the full tail; unreadable endpoints stop right after the computation. |
| PyAlgosClient.UploadSent | src/main/java/qupath/ext/pyalgos/client/PyAlgosClient.java:472-511 | From the upload on, the run sends a prefix of upload-then-tail, computing only after an accepted upload. |
| PyAlgosClient.ParametersStop | src/main/java/qupath/ext/pyalgos/client/PyAlgosClient.java:454-460 | Refused or failed parameters end the run with only the parameters sent and nothing shown. |
| PyAlgosClient.ParametersPass | src/main/java/qupath/ext/pyalgos/client/PyAlgosClient.java:454-476 | Accepted parameters (or none) and a selection lead to the upload. |
| PyAlgosClient.SentFollowsPlan | src/main/java/qupath/ext/pyalgos/client/PyAlgosClient.java:451-512 | A run with a selection sends a prefix of its plan in order. Each later request needs the earlier replies accepted; features are shown only when the computation listed them. |
| PyAlgosClient.NoSelectionSendsNoImage | src/main/java/qupath/ext/pyalgos/client/PyAlgosClient.java:463-467 | Without a selection, only the parameters are sent and nothing is shown. |
| PyAlgosClient.ParametersRefusedStops | src/main/java/qupath/ext/pyalgos/client/PyAlgosClient.java:454-460 | Refused parameters end the run with their refusal, before the image is sent. |
| PyAlgosClient.DeleteOnceAndLast | src/main/java/qupath/ext/pyalgos/client/PyAlgosClient.java:486-511 | The deletion is sent at most once and only last. It is sent whenever features were shown, or endpoints were read without features; unreadable endpoints send no deletion. |
| PyAlgosClient.DeleteWarningOnlyLogs | src/main/java/qupath/ext/pyalgos/client/PyAlgosClient.java:507-511 | A refused deletion only logs a warning; what was shown stays shown. |
| PyAlgosClient.Run | src/main/java/qupath/ext/pyalgos/client/PyAlgosClient.java:451-512 | The run's outcome and request log are those of RunSpec, and the host displays its shown features once. |
| PyAlgosClient.RunOneShot | src/main/java/qupath/ext/pyalgos/client/PyAlgosClient.java:335-441 | The one-shot run is the records run with the lenient reader: one POST with a selection, and each handled record displayed. |
| PyAlgosClient.GetAlgos | src/main/java/qupath/ext/pyalgos/client/PyAlgosClient.java:167-179 | One GET of "/algos_names/"; the names are its "services" array. |
| PyAlgosLegacyClient.ProcessPath | src/main/java/qupath/ext/pyalgos/client/Client.java:219 | The route is "/" followed by the algorithm name. |
| PyAlgosLegacyClient.Run | src/main/java/qupath/ext/pyalgos/client/Client.java:191-277 | The legacy run is the records run with the strict reader, POSTed to "/"+algo, with each handled record displayed. |
| PyAlgosLegacyClient.GetAlgos | src/main/java/qupath/ext/pyalgos/client/Client.java:157-167 | One GET of "/services"; the names are its "services" array. |

## Left out

- Base64 encoding of the image, image serialisation, and ImageIO TIFF decoding: host and library code. A run takes the serialised bytes and their base64 text as inputs (`Selection`), and TIFF decoding is the `TiffDecoder` parameter.
- QuPath's JSON-to-PathObject deserialisation (`gson.fromJson`) is host code and is the `ObjectDecoder` parameter.
- Parsing JSON text is not modelled: a body arrives as a `Json` value, or as None when it is not JSON text (a JsonSyntaxException where the code parses it).
- An empty or blank body is not told apart from the JSON text `null`. For `JsonParser.parseString`, both are JsonNull, which the caller passes as `Some(JNull)`: BodyObject, BodyArray, ErrorDetail and WarningDetail then give IllegalStateException, as in the code.
- PathObjectUtils.ParsePathObjects and PyAlgosClient.FeatureObjects: `gson.fromJson` turns an empty body into Java null, so parsePathObjects (PathObjectUtils.java:29-31) throws NullPointerException. The model cannot produce that exception: an empty body read as `Some(JNull)` gives an empty list.
- Gson's coercion of numeric strings by getAsInt and getAsDouble is not modelled: such a value is a NumberFormatException here.
- Doubles are modelled as exact reals, so rounding in the placement arithmetic is not modelled.
- The GUI is left out: dialogs, menus, threads, Platform.runLater (class merges are applied in call order) and ParametersDialog. So are the ServerKitUI menu-building code and PyAlgosUI.
- The hierarchy insertion of displayResult is reduced to appending detection copies to the selected annotation's children; events and the selection model are left out.
- The clients' shared, static API URL is one explicit `ClientState` object.
- The liveness probe's HTTP request is an input (`Probe`).
- Logging is left out: only whether logging itself throws is kept (`ErrorDetail`, `WarningDetail`).
- PyAlgosClient.runOneShot calls `computeOneShot`, which the HTTP client does not define. Its route is therefore a parameter of RunOneShot.
- getParameters / parseResponseToJsonObjectList are modelled only as far as a run uses them: ParametersSchema (serverkit) and BodyObject / BodyArray. The list-of-objects variant of PyAlgosClient (lines 108-133) is not separately modelled.
- ServerkitClient.Batches: every record, even one without detections (image, tracks, notification, unknown tags), calls displayResult. This follows the code, which calls it after the switch for every record.
- ServerkitClient.ShortLabelsFail: a class array shorter than the detections throws IndexOutOfBoundsException in the code (Client.java:389-390); the model follows the code.
- ServerkitClient.Dispatch: the serverkit switch has no "features" case, so a features record shows nothing there.
- PyAlgosClient.Fetch: the status of the features GET is not checked, as in the code. A transport or parse failure in that step escapes, so no DELETE is sent.
- PyAlgosClient.Compute: an exception while reading the output endpoints is caught and ends the run without the deletion (`NoEndpoints`), as in the code.
- Host.WarningDetail: logHttpWarning dereferences "detail" unconditionally, so a warning reply without one throws NullPointerException. The model keeps this.
- Classifications.IgnoreAppendedTwice: when the only result class is "Ignore*" and the list lacks it, the code appends IGNORE twice. The model keeps this.
- ParametersUtils.ParseParameter and ServerKitUI.ParseEntry: an int default outside the Java int range keeps its low 32 bits (Json.Int32), as Gson's intValue does; string defaults for numbers are not coerced (see above).
- Parameters.SameKey: the key a ParameterList generates for a title entry is taken never to equal a parameter's name, so a title is never replaced by a parameter.
- Geometry.ClassFromName and ServerkitClient.AttachEntry: a class name is always a single-level class. A label containing ":" is kept as one single-level class, where QuPath's class factory (Client.java:390) may build a derived class from it.
- Classifications.Below orders strings by Unicode scalar value. String.compareTo orders by UTF-16 code unit, so the two disagree when a character above U+FFFF is compared with one in U+E000 to U+FFFF.
- Host.Payload, ServerkitClient.ProcessRequest, FeaturesRecords.RecordsRequest and PyAlgosClient.ParametersRequest: the parameter map is an input. It is built by QuPath's `ParameterList.getKeyValueParameters(false)` and written by `ParameterList.convertToJson` (serverkit/client/Client.java:220-221, 245; PyAlgosClient.java:242-245). These are library code, so which entries they send (for instance the title entry) and how they write values are not modelled.
- Json.Get and the readers over members: a JSON object is a sequence of members, and the parser is taken to give distinct keys (Json.DistinctKeys). Gson keeps one entry per key, with the last value in the first key's position. The model's loops over an object's members (the class attachments, the schema entries) would visit a repeated key twice, and Get reads the first value. The lemmas about the class attachments assume distinct keys.
- getSelectedObject locks the selected annotation (`setLocked(true)`, Client.java:437-441) on every run that has a selection. HostState has no lock flag, so this is not modelled.
