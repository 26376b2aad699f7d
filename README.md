# golang-webservices-part-1 in Dafny

This project models three small Go programs and proves properties of the models.

- **The hash-signing pipeline** (`hw2_signer/signer.go`). `ExecutePipeline` chains jobs through buffered channels. `SingleHash` turns each value `v` into `crc32(v) + "~" + crc32(md5(v))`. `MultiHash` turns each value into the six digests `crc32("0"+v) … crc32("5"+v)`, joined in index order. `CombineResults` sorts everything it received and joins it with `"_"`.
- **The directory-tree printer** (`hw1_tree/pkg/tree`).
  - `BuildTree` turns a directory listing into nodes. It keeps directories always and files only on request, and labels files with their size.
  - `NewTree` makes the root node.
  - `RenderTree` writes one line per node below a node, with `├───`/`└───` connectors and `│  `/`  ` indents.
- **The search handler** (`SearchServer` in `hw4_test_coverage/client_test.go`). It checks the access token, selects the users whose first name, last name or description contains the query, optionally reorders them, and returns one page of them.

Modules:

- `Strings` (strings.dfy): the parts of Go's standard library the code relies on: `strings.Join`, `strconv.Itoa`/`Atoi`, `strings.Contains`, and the order and result of `sort.Strings`.
- `Signer` (signer.dfy) and `SignerLaws` (signer_laws.dfy): the pipeline.
  - Each stage is a method with a loop, proved equal to a specification function of its input channel.
  - `ExecutePipeline` is a loop over the jobs, proved equal to `PipelineRun`. `PipelineRun` says whether the run returns, panics or never returns.
  - The laws cover the sorted join, independence from arrival order, the full signing chain, and the two ways `ExecutePipeline` never returns.
- `Tree` (tree.dfy) and `TreeLaws` (tree_laws.dfy): the tree printer.
  - `BuildTree` and `RenderTree` are recursive methods with loops. They are proved equal to the specification functions `Built` and `Lines`.
  - The laws cover the pre-order listing, the connector and indent placement, and which entries are kept.
- `Search` (search.dfy) and `SearchLaws` (search_laws.dfy): the handler.
  - `SearchServer` is proved equal to the reply function `Serve`.
  - The laws cover the token gate, the filter, the order-field check, the number-parsing failures and the pagination bounds.

Stand-ins for things outside the code:

- `DataSignerMd5` and `DataSignerCrc32` are passed in as functions (`Digests`).
- The directory is an input value (`Listing`/`Entry`).
- The writer is the returned string.
- The HTTP request is a pair of maps. The parsed dataset is an `Option` that is empty when `dataset.xml` cannot be opened or parsed.
- The reordering `sort.Slice` performs, and the `OrderByAsIs` constant, are parameters, because neither is defined in the modelled files.

Two things about how the code behaves:

- **Feeding the pipeline.** `ExecutePipeline` never writes to or closes the first channel (signer.go:87). A pipeline is therefore fed by a first job that ignores its input (`Emit`). A first job that reads its input never returns (`SignerLaws.DrainingFirstJobNeverReturns`).
- **The md5 lock.** The lock around `DataSignerMd5` is made afresh in every `SingleHash` call (signer.go:16). It is not one lock shared by the whole process.

## Model

| member | source | states |
|---|---|---|
| Signer.PerItem | hw2_signer/signer.go:17-23 | a per-value stage panics exactly when some received item is neither a string nor an int; otherwise it sends one result per item, the i-th being the hash of the i-th item's text (an int through Itoa) |
| Signer.Collected | hw2_signer/signer.go:76-79 | CombineResults panics exactly when some received item is not a string; otherwise it collects every string, in order |
| Signer.SingleHash | hw2_signer/signer.go:13-44 | sends crc32(v) + "~" + crc32(md5(v)) for each value received, panics on a value of another type, and closes its output only if its input was closed |
| Signer.MultiHashValue | hw2_signer/signer.go:55-68 | whatever order the six slot goroutines finish in, the result is the six crc32 digests of "0"+v … "5"+v joined in slot order |
| Signer.MultiHash | hw2_signer/signer.go:47-72 | sends the six index-ordered digests for each value received, for every completion order of the slot goroutines |
| Signer.CombineResults | hw2_signer/signer.go:75-83 | sends nothing until its input is closed, then one string: all received strings sorted ascending and joined with "_"; panics on a non-string |
| Signer.RunJob | hw2_signer/signer.go:92-96 | a job sends what its stage sends on the channel it reads: fixed items for a feeding job, and otherwise what SingleHash, MultiHash or CombineResults sends |
| Signer.ExecutePipeline | hw2_signer/signer.go:86-101 | the run ends as PipelineRun describes: each job reads its predecessor's output, the first channel is never fed, outputs are closed when their job returns, an unread channel blocks after 100 items, a panic ends everything |
| SignerLaws.CombinedIsSortedJoin | hw2_signer/signer.go:80-81 | CombineResults' string is the join with "_" of the one ascending arrangement of the received strings, and "" when there were none |
| SignerLaws.CombinedPermutationInvariant | hw2_signer/signer.go:77-81 | CombineResults' string does not depend on the order its strings arrived in |
| SignerLaws.HashingOrderIrrelevant | hw2_signer/signer.go:17-39 | a per-value stage fed a reordering of its input panics on one exactly when it panics on the other, and its output is then a reordering of the other output |
| SignerLaws.CombiningOrderIrrelevant | hw2_signer/signer.go:75-83 | CombineResults sends exactly the same thing for any reordering of its input |
| SignerLaws.SignerPipeline | hw2_signer/signer.go:86-101 | a pipeline feeding strings and ints through SingleHash, MultiHash and CombineResults returns with one string on the last channel: the sorted "_"-join of MultiHash(SingleHash(v)) over the items |
| SignerLaws.SignerPipelineDeterministic | hw2_signer/signer.go:86-101 | the signing pipeline gives the same result for any order of the same items and any scheduling of the MultiHash slots |
| SignerLaws.ChannelOrderIrrelevant | hw2_signer/signer.go:38-78 | whatever order SingleHash's results reach MultiHash in and MultiHash's results reach CombineResults in, CombineResults sends the same string as with in-order delivery |
| SignerLaws.DrainingFirstJobNeverReturns | hw2_signer/signer.go:87-97 | if the first job reads its input (which nobody feeds or closes), the pipeline never returns normally |
| SignerLaws.UnreadLastChannel | hw2_signer/signer.go:91-95 | in any pipeline, nobody reads the last channel: once all earlier jobs have returned, a last job that returns having sent at most 100 items lets the run return with exactly those items, and with one sending more the run never returns |
| SignerLaws.UnreadInnerChannel | hw2_signer/signer.go:88-95 | a channel followed by a job that ignores its input is read by nobody: if the job before it sends more than 100 items, the run never returns normally |
| Strings.AtoiItoa | hw2_signer/signer.go:22 | the decimal text Itoa writes for any 64-bit number reads back as that number |
| Strings.SortProperties | hw2_signer/signer.go:80 | the result of sort.Strings is ascending and has the input's elements with their counts |
| Strings.SortPermutationInvariant | hw2_signer/signer.go:80 | inputs with the same elements sort to the same list |
| Strings.ContainsIff | hw4_test_coverage/client_test.go:72-74 | strings.Contains holds exactly when the query occurs as a contiguous piece of the string |
| Tree.NewNode | hw1_tree/pkg/tree/node.go:10-16 | the node holds the given name and kind and exactly the given children, in order |
| Tree.BuildTree | hw1_tree/pkg/tree/tree.go:72-95 | the nodes are Built(files): one per directory entry, holding the nodes of its own entries (none if unreadable), and one per file entry when files are shown, labelled " (empty)" or " (<size>b)" |
| Tree.Tree.Root | hw1_tree/pkg/tree/tree.go:33-35 | returns the root node the tree holds |
| Tree.NewTree | hw1_tree/pkg/tree/tree.go:60-69 | no tree exactly when the root cannot be read; otherwise the root is a directory named by the path whose children are BuildTree's nodes for its entries |
| Tree.RenderTree | hw1_tree/pkg/tree/tree.go:38-57 | the text written is the lines Lines(prefix, nd) describe, each being the joined prefix, a connector, a name and a newline |
| TreeLaws.LinesArePreorder | hw1_tree/pkg/tree/tree.go:40-55 | in a tree whose files have no children, RenderTree writes one line per node below nd and none for nd, in pre-order |
| TreeLaws.ChildBlock | hw1_tree/pkg/tree/tree.go:40-54 | child i gets one line with the caller's prefix and the end connector exactly when it is last; below a directory child come its own lines with the prefix extended by the last or default indent; below a file, nothing |
| TreeLaws.LinesExtendPrefix | hw1_tree/pkg/tree/tree.go:42-53 | every line below nd starts with the caller's prefix, extended only by default and last indents |
| TreeLaws.IndentText | hw1_tree/pkg/tree/tree.go:43-53 | extending the prefix by one indent extends the printed indent by exactly that text |
| TreeLaws.TopLevelText | hw1_tree/cmd/tree/main.go:13 | with the initial prefix [""] the children of the root are printed with no indent |
| TreeLaws.BuiltFollowsKept | hw1_tree/pkg/tree/tree.go:73-92 | BuildTree makes one node per kept entry, in listing order: a directory keeps its name and recurses, a file gets its size label and no children |
| TreeLaws.KeptMembers | hw1_tree/pkg/tree/tree.go:78-82 | an entry is kept exactly when it is a directory or files are shown |
| TreeLaws.KeptAll | hw1_tree/pkg/tree/tree.go:73-92 | with files shown, every entry is kept, in order |
| TreeLaws.BuiltWellFormed | hw1_tree/pkg/tree/tree.go:80-90 | file nodes never have children, at any depth |
| TreeLaws.HiddenFilesLeaveDirs | hw1_tree/pkg/tree/tree.go:78-82 | without files shown, every node at every depth is a directory |
| TreeLaws.TreeLines | hw1_tree/pkg/tree/tree.go:65 | rendering NewTree's root lists every node BuildTree made, at every depth, in pre-order |
| Search.ToUser | hw4_test_coverage/client_test.go:75-81 | a user's name is the first name, a space and the last name; id, age, description and gender are copied |
| Search.EmptyQueryMatches | hw4_test_coverage/client_test.go:84-93 | the query-less loop lists the same rows the filtering loop would for the empty query |
| Search.FilterRows | hw4_test_coverage/client_test.go:66-94 | the users listed are Selected(rows, query) |
| Search.Page | hw4_test_coverage/client_test.go:139-151 | panics exactly for a positive limit with a negative offset; no positive limit keeps everything; otherwise the contiguous piece starting at the offset (empty past the end) of length min(limit, users remaining after the offset), so it runs to the end of the list when fewer than limit remain |
| Search.PageAsWritten | hw4_test_coverage/client_test.go:139-151 | the handler's pagination with a 64-bit offset + limit panics exactly for a positive limit, an offset not past the end, and either a negative offset or a sum that wraps below the offset; whenever it does not panic on 64-bit inputs it gives the same page as Page |
| Search.Wrap64 | hw4_test_coverage/client_test.go:144 | a sum in Go's int is a 64-bit number congruent to the true sum |
| Search.SearchServer | hw4_test_coverage/client_test.go:50-163 | the reply is Serve(request): token check, dataset, filter, order_by, order_field, reordering, limit, offset and page, in the handler's order |
| SearchLaws.SelectedAppend | hw4_test_coverage/client_test.go:69-94 | the filter works row by row, so kept rows stay in dataset order |
| SearchLaws.SelectedMembers | hw4_test_coverage/client_test.go:69-83 | a user is listed exactly when a row that matches the query is listed as that user |
| SearchLaws.MatchesIff | hw4_test_coverage/client_test.go:72-74 | a row matches exactly when the query occurs in its first name, last name or description |
| SearchLaws.EmptyQueryKeepsAll | hw4_test_coverage/client_test.go:84-93 | with no query every row is listed, in dataset order |
| SearchLaws.TokenGate | hw4_test_coverage/client_test.go:51-54 | the reply is 401 "Invalid access token" exactly when the token is wrong |
| SearchLaws.OrderFieldChecked | hw4_test_coverage/client_test.go:101-122 | if order_by is not as-is, the reply is 400 "ErrorBadOrderField" exactly when order_field is not "Id", "Age", "Name" or "" |
| SearchLaws.UnparsableParameters | hw4_test_coverage/client_test.go:96-137 | a missing or non-numeric order_by, limit or offset ends the handler without a body |
| SearchLaws.AsIsListsSelection | hw4_test_coverage/client_test.go:101-139 | with as-is order and no positive limit the reply is every selected user in dataset order |
| SearchLaws.ListedAreSelected | hw4_test_coverage/client_test.go:124-151 | if the reordering only permutes, the users listed are among the selected ones, no more often than selected, and at most limit of them |
| SearchLaws.ListedMatch | hw4_test_coverage/client_test.go:69-151 | every listed user comes from a row matching the query |
| SearchLaws.PageAsWrittenAgrees | hw4_test_coverage/client_test.go:139-151 | the handler's 64-bit pagination agrees with Page whenever offset + limit fits in 64 bits |
| SearchLaws.PageOverflowPanics | hw4_test_coverage/client_test.go:144-149 | with two users, limit 9223372036854775807 and offset 1, the sum wraps and the handler's slice panics where the second user was meant to be listed |

## Left out

- Concurrency in the pipeline is not modelled: goroutines, `sync.WaitGroup`, and the mutex around `DataSignerMd5`. Each stage runs its loop once over what arrived on its input. That the mutex lets only one md5 run at a time is a concurrency property and is not stated.
- The model's stages send their results in input order, not in the nondeterministic order goroutines finish. Reorderings on the channels leave the final result unchanged: `SignerLaws.SignerPipelineDeterministic` covers the order of the fed items and the MultiHash slot schedule, and `SignerLaws.ChannelOrderIrrelevant` covers the two channels between the stages, composing `SignerLaws.HashingOrderIrrelevant` with `SignerLaws.CombiningOrderIrrelevant`.
- Channel blocking is modelled for every channel the next job does not read: the last channel, and one followed by an `Emit` job. Such a channel holds 100 items; a job sending more never returns. A channel read by SingleHash, MultiHash or CombineResults is always drained.
- `ExecutePipeline` is modelled only for the four kinds of `Job`: feeding fixed items, SingleHash, MultiHash and CombineResults. A job function of any other shape is not modelled, for example one that reads a single value and returns.
- A run that never returns is the outcome `Blocked`. Go's runtime aborts such a process with "all goroutines are asleep - deadlock!" once every goroutine is blocked; that abort, and telling it apart from waiting on other goroutines, is not modelled.
- A job that never returns because its input is never closed is modelled as sending what it would send before closing. For hashing stages that is one result per item received; `CombineResults` sends nothing.
- The timing and printing in `SingleHash` (signer.go:14, 37, 42-43) have no effect on results and are not modelled.
- `DataSignerMd5` and `DataSignerCrc32` are not part of this model. They are function parameters.
- Ints sent on a channel are unbounded integers. `strconv.Itoa` is exact on them, so no width matters there.
- `sort.Strings`' in-place algorithm is not modelled, only its result. Strings are sequences of code points; on UTF-8 text their order is the same as Go's byte order.
- File-system I/O is not modelled: `ioutil.ReadDir`, building child paths with the path separator, and the name order `ReadDir` returns. The listing is an input value, in the order given, and an unreadable subdirectory has no entries. The `path` argument of `BuildTree` only serves the I/O and is dropped.
- Writer errors and `io.Writer` itself are not modelled. The written text is the returned string.
- `RenderTree`'s closing `prefix = prefix[:len(prefix)-1]` has no visible effect. It appears only as the `|prefix| > 0` precondition, which the caller meets with `[""]`.
- Slice aliasing through `append(prefix, …)` is not modelled. Every call writes only beyond its caller's prefix length, so the output is the same as with value sequences.
- The command-line handling in `hw1_tree/cmd/tree/main.go` is not modelled, nor is its call on a nil tree when the root cannot be read.
- XML loading, JSON encoding, the `Content-Type` header and the body `sendError` writes are not modelled. `Failed` records the status and the message only. The `json.Marshal` failure path (client_test.go:153-157) cannot occur for these values.
- A panic while slicing, which `net/http` recovers, is the reply `Panicked`.
- Header-name canonicalisation in `Header.Get` is not modelled; the header map is read by its exact key.
- The order `sort.Slice` leaves is a parameter. Its comparator depends on `OrderByAsIs` and `orderDesc`, which are not part of this model; it is not a valid ordering unless `orderBy` is `orderDesc`; and the sort is not stable. `SearchLaws.ListedAreSelected` assumes only that it permutes.
- The `Test*` functions, `SearchClient`, `newTestServer`, and the `XmlRow` fields the handler does not read are not modelled.
- Search.SearchServer: computes `offset + limit` without 64-bit wrap-around, that is, the corrected pagination `Search.Page` (see Findings). `Search.PageAsWritten` models the handler as written.

## Findings

| source | as written | input that shows it | evidently intended | confidence | as-written member | corrected member |
|---|---|---|---|---|---|---|
| hw4_test_coverage/client_test.go:144-149 | `to := offset + limit` is a 64-bit sum; when it wraps, `to` falls below `from` and `resp[from:to]` panics | two selected users, limit=9223372036854775807, offset=1 | clamp the end of the page to the number of users, giving the second user | not executed | SearchLaws.PageOverflowPanics | Search.Page |
