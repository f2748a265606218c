# treesittergo host-side logic, in Dafny

treesittergo runs the tree-sitter parsing engine as a WebAssembly guest under
wazero. The Go host talks to the guest through its exported functions and its
linear memory. This project models the host-side logic that can be stated
without the engine:

- **Strings across the boundary** (`treesitter.go`). `allocateString` mallocs a
  guest block and copies the string's bytes into it, with no terminator.
  `readString` asks the guest's `strlen` for a length and reads that many bytes.
  Guest memory is an `array<u8>` behind wazero-style bounds-checked `Read`,
  `ReadUint16Le`, `ReadUint32Le` and `Write` (module `Wasm`). The session
  `Runtime.Treesitter` owns that memory, an abstract `strlen`, and a stand-in
  allocator that records the live blocks.
- **Query diagnostics** (`query.go`). When the guest rejects a query pattern,
  `NewQuery` computes a line and a column (`LocateError`, a loop) and builds a
  message (`FormatQueryError`). Identifier errors quote the longest
  `[a-zA-Z_][a-zA-Z0-9_-]*` token at the offset. Every other error echoes the
  rest of that line and puts a caret under the column. `QueryErrorTypeToString`
  names the error codes. Go's `%d`, `strings.Split`, `strings.Repeat` and the
  identifier regular expression are written out in module `Text`.
- **Match decoding** (`query.go`). `NextMatch` allocates a 12-byte match
  record and lets the guest fill it. It then reads the id (u32 at +0), the
  pattern index (u16 at +4), the capture count (u16 at +6) and the captures
  pointer (u32 at +8). Finally it walks the captures with a uint32 address that
  advances by 28 and wraps. Each capture's id is the u32 at +24, and its node is
  the capture's own address. `DecodeQueryMatch` is the specification. The
  `DecodeMatch` method (with its loop `ReadCaptures`) is proved equal to it,
  and a lemma shows that decoding a record in the guest's layout returns its
  fields.
- **Node iterator** (`iter.go`). An `Iterator` holds a list of nodes to visit,
  seeded with one node. `Next` pops the front node and fetches its children
  (all of them, or only the named ones) in index order. It puts them in front
  of the list (DFS) or behind it (BFS). `Step` is `Next` as a function. Module
  `Traversal` threads `Step` over a tree that the node queries describe. It
  proves that DFS yields pre-order and BFS yields level order, each followed
  by `io.EOF`.

`Next` and `ForEach` have value receivers in Go. The list that `Next` pops and
extends is therefore a copy, and the caller never sees it change. The model
keeps this: `Iterator.Next` modifies nothing and returns the lost list only as
a ghost value. `Iterator.ForEach` is proved to hand the seed node to the
callback in every round. The intended traversal orders are proved about
`Traversal.Run`, which keeps each step's update.

The comment at query.go:72 says the loop searches for the line containing the
offset. The loop overwrites `line_start` with every index it visits, including
the one where it stops. So for a non-empty pattern the column is 0 when the
offset is inside the pattern and 1 when it is at the end. For `(a (b)` with the
offset at its end the code computes column 1, and `Query.UnclosedParenMessage`
proves that message.

## Model

| member | source | states |
|---|---|---|
| Query.QueryErrorTypeToString | query.go:221-236 | the name is "unknown" exactly for codes above Capture (Structure, Language and every unknown code); no name contains a newline |
| Query.ErrorTypeNamesDistinct | query.go:221-236 | the five named codes map to five different names |
| Query.LocateError | query.go:72-84 | the loop's line is 1 plus the newlines before the offset; its column is the offset minus the last index the loop visited |
| Query.ErrorColumn | query.go:74-84 | the column is 0 for an offset inside a non-empty pattern, 1 for an offset at its end, and the offset itself for an empty pattern |
| Query.ErrorLine | query.go:73-83 | the reported line is at least 1 |
| Query.FormatQueryError | query.go:85-121 | Node type, Field and Capture errors give a one-line message |
| Query.PositionalErrorLines | query.go:108-121 | any other error gives exactly three lines: the header; the rest of the pattern from the offset up to, not including, the next newline; and `column` spaces followed by a caret |
| Query.IdentifierErrorToken | query.go:90-103 | when an identifier starts at the offset, the message quotes the longest one, and every identifier prefix there fits inside it |
| Query.IdentifierErrorNoToken | query.go:103-106 | when none starts there, the message is the header alone |
| Query.UnclosedParenMessage | query.go:72-121 | a syntax error at the end of `(a (b)` reads "invalid syntax at line 1 column 1", then an empty line, then a caret under column 1 |
| Query.NodeTypeMessage | query.go:72-103 | a node-type error at `b-c` in `(a)\n(b-c)`, one character into line 2, quotes `b-c` (hyphen included) and reports line 2, column 0 |
| Query.NewQueryResult | query.go:71-127 | the error is nil exactly when the error type is None, and the handle is then returned; otherwise the query is zero and the error is the formatted message |
| Query.DecodeQueryMatch | query.go:185-218 | decoding either succeeds with `more` set or fails, and a failure returns the zero match |
| Query.DecodeEncodedMatch | query.go:185-218 | a record in the guest's little-endian layout decodes to its id and pattern index, and to one capture per id; capture i has node handle capturesPtr + 28*i |
| Query.ReadCaptures | query.go:201-213 | the capture loop succeeds exactly when every capture id lies in memory, and then returns the specified captures in order |
| Query.WrapStep | query.go:212 | `addr += 28` on a uint32 keeps `addr` equal to capturesPtr + 28*i modulo 2^32 |
| Query.DecodeMatch | query.go:185-218 | the header reads and the capture loop compute exactly DecodeQueryMatch of the memory contents |
| Query.AllocateQueryMatch | query.go:163-170 | a non-zero 12-byte block joins the live blocks, or the error carries the "allocating query match: " prefix and the live blocks are unchanged |
| Query.NextMatch | query.go:172-219 | a failed allocation gives an error with the "allocating query match: " prefix and changes neither the live blocks nor memory; otherwise exactly the 12-byte record joins the live blocks (it is never freed); a failed guest call gives an error with the "getting query cursor next match: " prefix; a zero flag gives the zero match, no error and no more matches; any other flag gives DecodeQueryMatch of the record the guest left at the allocated block |
| Text.MatchIdentifier | query.go:97-100 | the match is an identifier and a prefix of the text; it is missing exactly when the text does not start with a letter or underscore |
| Text.LongestIdentifier | query.go:98-99 | every identifier prefix of the text is no longer than the match |
| Text.Decimal | query.go:101-105 | `%d` gives a non-empty run of digits with no leading zero |
| Text.DecimalRoundTrip | query.go:101-105 | reading the digits back gives the number |
| Text.SplitLines | query.go:117 | splitting gives at least one piece and no piece contains a newline |
| Text.JoinSplit | query.go:117 | joining the pieces with newlines gives back the string |
| Text.SplitJoin | query.go:119-121 | splitting newline-free pieces joined by newlines gives back the pieces |
| Text.FirstLine | query.go:116-121 | the first piece is a prefix of the string that ends at its end or at a newline |
| Text.Spaces | query.go:118 | `strings.Repeat(" ", k)` is k spaces |
| Runtime.Treesitter.AllocateString | treesitter.go:98-116 | on success, size is the byte length, the new block joins the live blocks with that size (the others stay live) and memory is the old memory with the bytes written at the block (nothing else changes, no terminator); on failure the results are 0, 0 and no free function, memory is unchanged, and the error names the failed step; after a malloc failure the live blocks are unchanged, and after a write failure the allocated block stays live (it leaks) |
| Runtime.Treesitter.Invoke | treesitter.go:113-115 | the free function releases exactly the allocated block |
| Runtime.Treesitter.ReadString | treesitter.go:118-128 | the result is ReadCString of the memory contents |
| Runtime.ReadCString | treesitter.go:118-128 | a failing strlen gives the wrapped error; otherwise it returns exactly the strlen bytes at the uint32 address, or "error reading string" when they do not fit in memory |
| Runtime.ReadBackTerminated | treesitter.go:98-128 | with the guest's C strlen, the bytes written read back intact when they hold no zero byte and a zero follows them |
| Runtime.ReadBackEmbeddedZero | treesitter.go:98-128 | conversely, bytes with a zero at index k (and none before it) read back as only their first k bytes, with no error |
| Runtime.ReadBackUnterminated | treesitter.go:109-125 | when they hold no zero byte and the byte after them is not zero, reading back fails or returns more than was written |
| Wasm.Write | treesitter.go:109 | a write succeeds exactly when the range fits, and then stores the bytes there |
| Wasm.Read | treesitter.go:124 | a read succeeds exactly when the range fits, and returns those bytes |
| Wasm.ReadUint32Le | query.go:185 | the little-endian word at the offset, or failure exactly when offset + 4 exceeds the memory size |
| Wasm.ReadUint16Le | query.go:189 | the little-endian half-word at the offset, or failure exactly when offset + 2 exceeds the memory size |
| Wasm.DecodeEncodeU32 | query.go:185-199 | decoding the guest's little-endian encoding of a u32 gives it back |
| Iter.CollectChildren | iter.go:53-59 | a successful children loop keeps what it had and adds one node per remaining index |
| Iter.CollectChildrenSound | iter.go:53-71 | the children loop succeeds iff every child query succeeds; it then returns their answers in index order, and otherwise the wrapped error of a failing query |
| Iter.FetchChildren | iter.go:48-72 | a failing count query gives the wrapped count error; a successful fetch returns as many children as the count says |
| Iter.FetchChildrenSound | iter.go:48-72 | the fetched children are exactly the child queries' answers, through the named accessors iff `named` |
| Iter.FetchChildrenExact | iter.go:48-72 | conversely, when the queries report a list of children, the fetch returns that list |
| Iter.Step | iter.go:39-83 | an empty list gives the zero node and EOF; otherwise the step succeeds iff the fetch does and returns the front node, and a failed fetch returns its wrapped error; `named` and mode are unchanged and errors return the zero node |
| Iter.StepKeepsNodes | iter.go:45-81 | a successful step leaves the rest of the list plus the children (as a multiset): no node is lost or invented |
| Iter.StepDfs | iter.go:74-76 | DFS leaves children followed by the rest |
| Iter.StepBfs | iter.go:77-78 | BFS leaves the rest followed by the children |
| Iter.Iterator.NewIterator | iter.go:23-29 | an iterator over all children, seeded with exactly the given node |
| Iter.Iterator.NewNamedIterator | iter.go:31-37 | an iterator over named children, seeded with exactly the given node |
| Iter.Iterator.Next | iter.go:39-83 | returns Step's node and error and changes nothing in the iterator (value receiver); the list it built is Step's |
| Iter.Iterator.ForEach | iter.go:85-96 | every round hands the callback the same seed node; it stops at Next's error (returned as is) or the callback's first error, and runs out its rounds otherwise |
| Traversal.Run | iter.go:85-96 | repeated steps that keep their update return at most one node per round, and exactly one per round when no error stopped them |
| Traversal.RunDfs | iter.go:74-76 | DFS from a described forest returns its pre-order, then EOF |
| Traversal.RunBfs | iter.go:77-78 | BFS from a described queue of trees visits it in queue order, then EOF |
| Traversal.BfsIsLevelOrder | iter.go:77-78 | the queue order is level order |
| Traversal.BfsPermutesPreorder | iter.go:74-78 | both modes visit the same nodes, each equally often |
| Traversal.PreorderSize | iter.go:74-76 | pre-order lists as many nodes as the forest has |
| Traversal.TraversalOrder | iter.go:23-96 | repeated steps that keep their update, seeded with a described tree's root, return pre-order (DFS) or level order (BFS), then EOF |
| Traversal.OrdersDiffer | iter.go:74-78 | on root 1 with children 2 (with child 3) and 4, DFS gives 1 2 3 4 and BFS gives 1 2 4 3 |

## Left out

- `New` (treesitter.go:51-96) is wazero runtime setup and export lookup; it is not part of this model.
- The rest of `NewQuery` (query.go:44-69) is not modelled: allocating the error slots, allocating the pattern, the guest compile, and reading back the error offset and type. `Query.NewQueryResult` starts from the handle, offset and type that part produces.
- `CaptureNameForID` (query.go:130-148) is not part of this model: it mallocs a 4-byte length slot, calls the guest's capture-name export, then reads the u32 length and that many name bytes from memory, each step with its own error text.
- `NewQueryCursor` and `Exec` (query.go:150-161) are single guest calls; they are not part of this model.
- node.go, tree.go, parser.go, language.go and language_sql.go are not part of this model. The child queries the iterator uses are the function values of `Iter.NodeAccess`. Named-child access is abstract, because node.go defines no such methods.
- The engine itself is opaque. `Query.CallQueryCursorNextMatch` may return any flag and leave any bytes in memory, and `Runtime.Treesitter.strlen` is an arbitrary function of the memory contents and the address.
- Query.LocateError: requires an ASCII pattern, so that Go's rune loop visits every byte index. A mid-rune offset is not modelled.
- Query.FormatQueryError: requires an ASCII pattern and an offset within it; the Go code panics on a larger offset.
- Text.MatchIdentifier: a hand-written longest-prefix scanner stands in for Go's `regexp` engine.
- Runtime.Treesitter.Malloc: a bump allocator stands in for the guest's `malloc`. Failure is an error result here, whereas the real `malloc` returns 0. Nothing ties the block to the memory size, because the Go code never checks that. Memory does not grow.
- Runtime.Treesitter.AllocateString: requires fewer than 2^64 bytes; the `uint64` length of a larger Go string cannot occur.
- Iter.Iterator.Next: an unknown mode panics in Go; here that case is excluded by a precondition.
- Iter.Iterator.ForEach: the Go loop has no bound. Here it runs at most `fuel` rounds and reports no error when they run out. The callback is a function of the round number and the node, which stands for a Go closure with state.
- Traversal.Run: runs at most `fuel` steps; the order lemmas give enough fuel to reach EOF.
- Guest handles that are never released are not modelled: queries, match records, node buffers and error slots.
- Contexts, errors as Go values (only their text is kept) and the `Treesitter` reference carried inside `Node`, `Query` and `QueryCursor` are left out.
