# HR assistant retrieval core, modelled in Dafny

This project models the part of the HR assistant's `core_logic.py` that the
repository implements itself. That part has two pieces:

- **Employee documents.** The loader walks the parsed `employees` list and
  builds one retrieval document per employee. Each document has a fixed-order
  descriptive text (name, years of experience, skills, past projects,
  availability) and an `{id, name}` metadata dictionary. A record that lacks a
  key stops the whole load, and no partial list is returned.
- **The chain slot.** A process-wide `rag_chain` slot starts empty. The
  initialiser returns the chain already in the slot. Otherwise it runs the
  build steps: load the documents, build the vector store, check the API key
  and create the generation client, then assemble the chain. It writes the
  slot only after every step has succeeded. A query on an empty slot is an
  error. Otherwise the query invokes the chain and returns the response's
  `result`, or the fixed fallback answer when that key is missing.

Files:

- `wrappers.dfy`: `Option` and `Result`.
- `text.dfy` (module `Text`): Python's `', '.join(...)` (`Join`) and `str(n)`
  for a non-negative integer (`NatToString`), each with a partner definition
  and lemmas that connect the two.
- `documents.dfy` (module `EmployeeDocuments`): the raw record with optional
  keys, key lookup in the order the source reads the keys, the content text,
  the metadata, the specification `LoadDocuments`, and the loop
  `LoadEmployeesAsDocuments`, proved equal to that specification.
- `engine.dfy` (module `RagEngine`): the build steps as one function `Build`.
  The functions `InitStep` and `QueryStep` model one call each, and `Run`
  applies a sequence of calls. The class `Engine` holds the `ragChain: Option<Chain>`
  slot and the two methods that read and write it.

The vector store and the chain are abstract types. The library steps that
build them and the chain's `invoke` are parameters (`Environment.buildStore`,
`Environment.buildChain`, and the `invoke` argument of a query). Each build
step returns either its value or a failure message.

What the code does not do:

- The code never initialises lazily: a query on an empty slot fails with
  `NotInitialized`.
- The loader does not check that ids are unique.
- The loader accepts an empty employee list. Whatever the vector-store library
  does with zero documents is part of `buildStore`.
- Query expansion, merging and ranking happen inside library calls, which the
  code only configures.

## Model

| member | source | states |
|---|---|---|
| `Text.Join` | core_logic.py:90-91 | `', '.join`: the empty list gives "", one item gives itself, and otherwise the length is the sum of the item lengths plus one separator between each two items, with the result starting with the first item |
| `Text.JoinThenSeparator` | core_logic.py:90-91 | the joined text followed by one separator equals every item followed by the separator, in list order (an independent definition of the join) |
| `Text.JoinConcat` | core_logic.py:90-91 | joining two non-empty lists end to end gives the two joined halves with one separator between them |
| `Text.NatToString` | core_logic.py:89 | the years of experience as text: a non-empty string of decimal digits, one digit exactly for values below ten, and a leading zero only for zero |
| `Text.ParseNatToString` | core_logic.py:89 | reading the rendered digits back gives the original number, so the rendering loses nothing |
| `EmployeeDocuments.Lookup` | core_logic.py:85-96 | a record is accepted exactly when it has every key the loader reads. Otherwise the reported key is missing and every key read before it is present, in the order name, experience_years, skills, projects, availability, id. An accepted record's fields are the dictionary's values |
| `EmployeeDocuments.ContentDescribes` | core_logic.py:87-93 | the content text is the five sentences `label: value.` for Name, Experience (`<n> years`), Skills, Past Projects and Availability, in that order and separated by single spaces |
| `EmployeeDocuments.Content` | core_logic.py:87-93 | the body is the content f-string over already-rendered values; the contract states that it adds exactly 70 characters of labels and punctuation to the five values, and `ContentDescribes` states what those characters are |
| `EmployeeDocuments.Render` | core_logic.py:87-93 | an employee's text is the five-sentence description (`Describe(Fields(e))`) of its own fields: the years rendered by `NatToString`, and the skill and project lists joined by `", "` |
| `EmployeeDocuments.ToDocument` | core_logic.py:96-99 | the document of an employee: its text is the five-sentence description of the employee's fields, and its metadata holds exactly the keys `id` and `name` with the employee's values |
| `EmployeeDocuments.Metadata` | core_logic.py:96 | the metadata holds exactly the keys `id` and `name`, with the employee's id and name |
| `EmployeeDocuments.DocsOfSucceeds` | core_logic.py:85-103 | loading the list succeeds exactly when every record has every key the loader reads |
| `EmployeeDocuments.DocsOfShape` | core_logic.py:81-103 | a successful load gives one document per employee, in list order, each with that employee's text and metadata |
| `EmployeeDocuments.DocsOfFailure` | core_logic.py:85-103 | a failed load reports the first incomplete record and the first key it misses. Every earlier record was complete, and only the error is returned, with no document list |
| `EmployeeDocuments.DocsOfPrefixFailure` | core_logic.py:85-103 | once some prefix of the list fails, the whole load fails with that prefix's error, because later records are never read |
| `EmployeeDocuments.DocsOf` | core_logic.py:85-103 | the body is the specification of the loop over the employee list; the contract states that a success has one document per record and that a failure is a missing key at an index inside the list. `DocsOfSucceeds`, `DocsOfShape`, `DocsOfFailure` and `DocsOfPrefixFailure` describe it fully |
| `EmployeeDocuments.LoadDocuments` | core_logic.py:83-103 | the body is the loader's result; the contract states that a file without an `employees` list is exactly the `MissingEmployees` failure, and that a success has one document per listed record |
| `EmployeeDocuments.LoadEmployeesAsDocuments` | core_logic.py:76-103 | the appending loop returns exactly `LoadDocuments(data)`, so the shape and failure lemmas above apply to it |
| `RagEngine.InitializeLlm` | core_logic.py:106-117 | a generation client is created exactly when the key is present and non-empty. It uses that key and the `gemini-1.5-flash` model, and otherwise the error is the missing-key error |
| `RagEngine.Build` | core_logic.py:48-71 | the body is the four build steps in source order; the contract states that a load failure is reported as such whatever the other steps would do, so a bad record wins over a missing key. `BuildErrorOrder`, `BuildSucceeds` and `BuildFromSteps` state the rest |
| `RagEngine.BuildSucceeds` | core_logic.py:48-71 | a successful build implies that the employee list was present with every record complete, and that the key was present and non-empty. The chain is the one assembled from the store over exactly the loaded documents and that key's client |
| `RagEngine.BuildFromSteps` | core_logic.py:48-71 | conversely, complete records, a store built over exactly their documents, a present non-empty key and a chain assembled from that store and the key's `gemini-1.5-flash` client make the build return that chain |
| `RagEngine.BuildErrorOrder` | core_logic.py:51-71 | with the documents loaded, a store failure is reported as `IndexFailed` with its message; with the store built, a bad key is reported as `MissingApiKey`; with the client created, a failing chain assembly is reported as `ChainFailed` with its message; and a `ChainFailed` error means every earlier step succeeded |
| `RagEngine.BuildWithoutApiKey` | core_logic.py:51-58 | with a missing or empty key the build fails at the load, at the store or at the key check, and the chain is never assembled |
| `RagEngine.InitStep` | core_logic.py:42-74 | a filled slot is returned unchanged. An empty slot gets the build's result, and it is filled exactly when the build succeeds, with the chain that is returned |
| `RagEngine.AnswerOf` | core_logic.py:128 | the response's `result` when present; otherwise `Sorry, I encountered an error.` |
| `RagEngine.QueryStep` | core_logic.py:119-128 | a query fails with `NotInitialized` exactly when the slot is empty. Otherwise it returns the answer of the chain in the slot |
| `RagEngine.ReadyIsPermanent` | core_logic.py:44-46 | once filled, the slot keeps the same chain whatever initialisations and queries follow, so the chain is never rebuilt |
| `RagEngine.FailuresKeepUninitialized` | core_logic.py:51-67 | while no build succeeds, the slot stays empty, because it is written only after the last step |
| `RagEngine.ReadyFromFirstSuccess` | core_logic.py:37-74 | a filled slot holds the chain of the first initialisation whose build succeeded, and every earlier initialisation failed |
| `RagEngine.Engine.constructor` | core_logic.py:35 | the slot starts empty |
| `RagEngine.Engine.InitializeRagChain` | core_logic.py:37-74 | the new slot and the result are `InitStep` of the old slot. A filled slot is returned unchanged, and after a failure the slot is empty |
| `RagEngine.Engine.QueryRagChain` | core_logic.py:119-128 | refuses with `NotInitialized` on an empty slot. Otherwise it returns the `result` of the chain's response, or the fallback answer. It has no `modifies` clause, so it cannot change the slot |

## Left out

- Opening and parsing `data.json` (core_logic.py:82-83) and loading `.env` (core_logic.py:13): the model starts from the parsed file (`ParsedData`) and the key's value (`Environment.apiKey`).
- JSON value types: `id`, `name` and `availability` are strings, `experience_years` is a natural number, and `skills`/`projects` are lists of strings. A record whose values have other types (a float of years, a boolean availability, a non-string list item that makes `join` raise, an `employees` value that is not a list) is not modelled.
- `EmployeeDocuments.LoadError`: the source raises a `KeyError` that carries only the missing key; the model also records the index of the record, to state which record stopped the load.
- The embedding model, the FAISS store, `MultiQueryRetriever`, `RetrievalQA` and the Gemini client (core_logic.py:54-71, 112-117) are library code with floating-point embeddings: they are the abstract `Store`/`Chain` types and the `buildStore`/`buildChain`/`invoke` parameters. Query expansion, nearest-neighbour ranking, deduplication and merging happen inside them and are not modelled.
- `RagEngine.InitializeLlm`: the client's temperature (a float) and its system prompt are not part of the modelled configuration; `SYSTEM_PROMPT` (core_logic.py:16-32) is a constant text the code passes to the client and never inspects.
- `RagEngine.Engine.QueryRagChain`: an exception raised inside the chain's `invoke` (network, quota) is not modelled; `invoke` is a total function.
- `print` logging throughout core_logic.py.
- Concurrency around initialisation: the source has no lock, and the model has none.
- frontend.py (Streamlit chat page and HTTP calls) and backend.py (FastAPI routes, the startup hook that calls the initialiser, the empty-query 400 check and the translation of exceptions into HTTP 500) are not part of this model.
