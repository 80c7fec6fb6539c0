# postman2apiary converter, modelled in Dafny

This project models the `PostmanToApiary` class of `app/converter.py`. The class turns
a parsed Postman collection into an API Blueprint document.

- The constructor reads the collection variables, the document title,
  the description, the host and the top-level items into fields.
- `process_item` groups request items into an insertion-ordered dictionary of
  resources, keyed by the joined URL path.
- `write` emits the document header, then calls `process_folder` for every
  top-level item.
- `process_folder` groups that item's children, writes a `# Group N.name`
  heading numbered by the `folderNum` counter, and writes every resource of the
  dictionary with its method entries.

The model keeps the class's shape:

- `Converter.PostmanToApiary` is a Dafny class with the fields the modelled
  methods read or assign: `data`, `name`, `description`, `domain`,
  `folderNum`, `resources`, `folders` and `collection_variable`
  (as `collectionVariable`).
- Three members stand for what the Python code reaches outside the class:
  `loads` and `dumps` for the `json` library, and `out` for the output file.
- The fields `file` and `output_file` (file names) and the unused
  `api_version` are not modelled. `file_format` is the constant
  `Blueprint.FileFormat`, since no method assigns it.
- The class invariant `Valid()` says the dictionary holds each path once.
  Every method that changes `resources` keeps it.
- Its methods change only the fields their Python counterparts assign.
- The loops over variables, folders, items, resources and methods are
  `for` loops with invariants.
- The output file is `out`, the sequence of chunks passed to `doc.write`, in order.

Every method is proved against pure specification functions:

- `Grouping.ItemEntry`, `Grouping.Group` and `Grouping.GroupAll` for the dictionary.
- `Blueprint.Header`, `Blueprint.MethodText`, `Blueprint.SectionText`,
  `Blueprint.FolderStep` and `Blueprint.Document` for the text.

The lemmas state the properties of those functions.

Python's exceptions stop the run. The model returns them as an `Error` value
(`Postman.Error`, one constructor per raise point), with these effects:

- The output written before the raise stays in `out`.
- The dictionary keeps the entries grouped before the raise.

`json.loads` and `json.dumps` are parameters of the model: `loads` returns
`None` for text that is not JSON, and `dumps` is any total function. An absent
key, read with `dict.get`, is an `Option` that is `None`.

The model follows the code as written, including where a reader might expect otherwise:

- The resource dictionary is created once (`app/converter.py:22`) and never
  cleared. Every section therefore repeats the resources of all earlier
  folders (`Blueprint.SectionsAccumulate`, `Blueprint.RunFoldersSections`).
- The title is `info.name`. A collection without it makes the header raise
  when it concatenates `None`, before the title chunk is written. The
  description is the top-level `description` key.
- For POST and PUT, a missing body or raw text makes `process_item` raise.
  A body that parses is always written between the braces, with its first and
  last character cut off.
- A top-level item without `item` still gets its group heading
  (`Blueprint.FolderWithoutItems`).

## Model

| member | source | states |
|---|---|---|
| Converter.PostmanToApiary.constructor | app/converter.py:12-28 | after construction the counter is 1, the dictionary and output are empty, the variable map is built from the `variable` list, and title, description, host and folders are the values `get_document_info` and `get_folders` derive |
| Converter.PostmanToApiary.GetCollectionVariable | app/converter.py:39-42 | the variable map becomes the old map with `key := value` assigned for each listed variable in list order |
| Converter.PostmanToApiary.GetDocumentInfo | app/converter.py:44-47 | title is `info.name` (None if missing), description is the top-level description or `''`, host is the `domain` variable or `http://localhost` |
| Converter.PostmanToApiary.GetFolders | app/converter.py:49-50 | the folders are the collection's top-level `item` list, None when absent |
| Converter.PostmanToApiary.ProcessItem | app/converter.py:99-131 | an item that yields an entry groups it into the dictionary (append under a known path, new resource at the end otherwise); an item that raises returns its error and leaves the dictionary unchanged; paths stay distinct |
| Converter.PostmanToApiary.ProcessItems | app/converter.py:69-70 | the item loop groups the entries of the items before the first failing one, in order, and returns that item's error |
| Converter.PostmanToApiary.ProcessFolder | app/converter.py:65-97 | the new output, dictionary, counter and error are one `FolderStep`: a failing child stops before anything is written; otherwise the section numbered by the old counter is appended and the counter rises by one |
| Converter.PostmanToApiary.WriteGroup | app/converter.py:73-95 | appends the `# Group N.name` heading and every resource of the dictionary in insertion order, and raises the counter by exactly one |
| Converter.PostmanToApiary.WriteResource | app/converter.py:76-95 | appends the resource heading and then every method entry in append order |
| Converter.PostmanToApiary.WriteMethod | app/converter.py:81-95 | appends exactly the chunks of one method entry: title, description if non-empty, request block for POST/PUT, response line |
| Converter.PostmanToApiary.Write | app/converter.py:52-63 | truncates the output; the final output, dictionary, counter and error are those of `Document` on the fields: header, then the folder loop, stopping at the first error |
| Converter.PostmanToApiary.WriteHeader | app/converter.py:54-59 | appends the header chunks up to the first `None` concatenated, and reports that error |
| Converter.PostmanToApiary.ProcessFolders | app/converter.py:62-63 | the folder loop equals `RunFolders`: one `FolderStep` per top-level item, in order, stopping at the first error |
| Converter.Generate | app/converter.py:140-141 | constructing the converter and calling `write` yields exactly `Convert` of the collection: its output and its error |
| Text.SplitJoin | app/converter.py:105 | the `/`-joined path splits back into its segments when no segment contains `/` |
| Text.JoinSplit | app/converter.py:105 | joining the parts of a split text gives the text back |
| Text.JoinInjective | app/converter.py:105 | two non-empty segment lists without `/` give the same path exactly when they are equal |
| Text.NatToString | app/converter.py:73 | `str(folderNum)` is a non-empty string of decimal digits without a leading zero |
| Text.StringToNatOfNatToString | app/converter.py:73 | the group number can be read back from its text, so distinct counters give distinct headings |
| Text.Inner | app/converter.py:90 | for a text of at least two characters, the slice `[1:-1]` is what lies between its first and last character; shorter texts give `''` |
| Variables.WithVariables | app/converter.py:39-42 | the keys of the map are the old keys plus every key in the list |
| Variables.LastValueWins | app/converter.py:41-42 | a key listed more than once maps to the value of its last occurrence |
| Variables.UnlistedKeyKept | app/converter.py:41-42 | a key no variable lists keeps its old value |
| Variables.DomainDefault | app/converter.py:47 | without a `domain` variable the host is `http://localhost` |
| Variables.DomainFromLastVariable | app/converter.py:47 | with `domain` variables the host is the value of the last of them |
| Grouping.ItemEntrySpec | app/converter.py:99-120 | an item yields an entry iff it has a request with an object url and, for POST/PUT, a raw body that parses; the entry's path is the `/`-join of the segments (`''` without), name and description default to `''`, requestBody is the parsed JSON for POST/PUT and `''` otherwise, responseBody is `''` |
| Grouping.Find | app/converter.py:122 | the lookup `path in self.resources` finds the first resource with that path, and finds none exactly when the path is not a key |
| Grouping.FindFirst | app/converter.py:122 | the first resource with a path is the one found |
| Grouping.GroupKeys | app/converter.py:122-131 | a known path keeps the key order; a new path is added at the end |
| Grouping.GroupKeeps | app/converter.py:122-131 | existing resources keep position, path and name; resources under other paths are unchanged; a new path gets one resource with the item's name and the single entry |
| Grouping.GroupAppends | app/converter.py:122-131 | the entry becomes the last method under its path; the name stays the first entry's, or is this item's for a new path |
| Grouping.GroupOtherPaths | app/converter.py:122-131 | other paths keep their methods and names |
| Grouping.GroupDistinct | app/converter.py:122-131 | keys stay distinct |
| Grouping.GroupAllKeeps | app/converter.py:122-131 | over a run of entries the dictionary only grows, by at most one resource per entry, and existing resources keep position, path and name |
| Grouping.GroupAllDistinct | app/converter.py:122-131 | keys stay distinct over any run of entries |
| Grouping.GroupAllMethods | app/converter.py:122-131 | the methods under a path are the old ones followed by every entry for that path, in encounter order |
| Grouping.GroupAllPaths | app/converter.py:122-131 | a path is a key after grouping iff it was before or some entry has it |
| Grouping.GroupAllNameNew | app/converter.py:124-131 | a new path's resource is named after the first entry for it |
| Grouping.GroupAllNameKept | app/converter.py:122-123 | an existing path keeps its name whatever follows |
| Grouping.GroupAllAppend | app/converter.py:62-70 | grouping two runs one after the other is grouping them together, which is why the dictionary carries over from folder to folder |
| Grouping.CollectSpec | app/converter.py:69-70 | the item loop takes the entries of the leading items in order; either every item is taken, or the first item not taken is the one that raised |
| Grouping.CollectStops | app/converter.py:69-70 | items after one that raised are never looked at |
| Blueprint.HeaderSpec | app/converter.py:54-59 | the header is `FORMAT: 1A`, `HOST: <domain>`, `# <name>`, then the description only if non-empty; a `None` host or title raises right after the chunks before it |
| Blueprint.MethodLayout | app/converter.py:81-95 | a method entry is the title, the description paragraph only if non-empty, the request block only for POST/PUT (its six chunks: the request line, `    + Body`, the opening brace, the sliced dump, the closing brace, the blank lines), and the response line last |
| Blueprint.TitleIsNotPlusLine | app/converter.py:81-82 | a method title is never one of the `+` lines |
| Blueprint.RequestOnlyForBodyMethods | app/converter.py:84-92 | a `+ Request (application/json)` line appears in a method entry iff the method is POST or PUT (or its description is that very line) |
| Blueprint.RequestBlockResponses | app/converter.py:86-92 | the request block contains the response line only if the sliced body is that line |
| Blueprint.OneResponsePerMethod | app/converter.py:95 | each method entry ends with `+ Response 200 (application/json)` and writes it exactly once unless its own text equals that line |
| Blueprint.ResponsesPerResource | app/converter.py:80-95 | a resource writes one response line per method entry |
| Blueprint.RunFoldersStops | app/converter.py:62-63 | after a folder raises, later folders change nothing |
| Blueprint.RunFoldersStopsAt | app/converter.py:62-63 | the run over all folders equals the run up to the folder that raised |
| Blueprint.RunFoldersExtends | app/converter.py:62-97 | the folder loop only appends to the output |
| Blueprint.Sections | app/converter.py:62-80 | there is one section per top-level item |
| Blueprint.SectionAt | app/converter.py:62-80 | the k-th section is numbered `first + k`, named after its item, and lists the dictionary after grouping the children of items 0..k |
| Blueprint.FolderStepGroups | app/converter.py:65-97 | after a folder that succeeds, each child contributed its own entry, every path holds its old method entries followed by the children's entries for it in child order, the counter rose by one, and the output was only appended to |
| Blueprint.SectionPathsDistinct | app/converter.py:76-78 | every section lists each path at most once, so each path gets one `##` heading per section |
| Blueprint.RunFoldersSections | app/converter.py:62-80 | a folder loop that succeeds raises the counter by exactly one per top-level item, leaves the dictionary holding every entry of every folder, and writes exactly the sections `Sections` lists |
| Blueprint.SectionsAccumulate | app/converter.py:76-80 | a later section starts with every resource of an earlier one, same paths, same names, same order |
| Blueprint.FolderWithoutItems | app/converter.py:66-73 | a top-level item without children still gets its `# Group N.name` heading, followed by every resource grouped so far |
| Blueprint.DefaultHost | app/converter.py:47-56 | without a `domain` variable the second chunk of the document is `HOST: http://localhost` |
| Blueprint.ConvertSections | app/converter.py:52-80 | a run that succeeds has a title and a folder list, and writes the header followed by one section per top-level item numbered from 1; the counter ends at one more than the number of items |
| Examples.OneFolderExample | app/converter.py:52-131 | a collection `API` with folder `Users` holding `GET users` named `List` converts to the exact seven chunks of its document, one resource, and counter 2 |

## Left out

- File I/O is left out. The model does not read the collection file or catch
  its load errors, which print and `exit(0)`. It does not model closing,
  truncating (`w+`) and reopening (`a`) the output file. The output is one
  buffer that `write` empties and every later write appends to.
- JSON parsing and printing are left out. The collection is given as
  `Postman.Collection`. `json.loads` and `json.dumps(…, indent=14)` are
  parameters, and only the `[1:-1]` slice of the dump is modelled.
- Converter.PostmanToApiary.WriteMethod: the `try/except: pass` around the
  request block is not modelled. `dumps` is total, so the model always writes
  the whole block. In Python a raising `json.dumps` can leave it partly written.
- JSON values of the wrong type are not modelled. Examples are a non-string
  name, a `path` that is a string instead of a list, or a non-string segment,
  each of which makes Python raise or behave differently. Every field is
  either absent or of the expected type.
- An explicit JSON `null` is not told apart from an absent key: both are
  `None`. This matters where `get` has a default: Python returns `None` for a
  present `null`, and the model uses the default instead.
- The dead `raise ValueError` branch (`isinstance(url, object)` always holds) is
  left out. So are the unused `urlparse`, `api_version` and the item's
  `response` key.
- The fields `file` and `output_file` and the loading step that reads them are
  left out, because the collection is given already parsed and the output is a
  buffer.
- The hard-coded file paths of the `__main__` block are left out.
  `Converter.Generate` models only its construct-then-`write` sequence.
- Text.NatToString: the contract states only the shape of the digit string.
  Its value is stated by `Text.StringToNatOfNatToString`.
