/**
 * query.go: the diagnostics `NewQuery` builds when the guest rejects a
 * pattern, `QueryErrorTypeToString`, and `NextMatch`, which decodes the
 * guest's 12-byte match record and its array of 28-byte captures.
 */
module Query {
  import opened Values
  import opened Wasm
  import opened Text
  import Runtime

  // The guest's TSQueryError codes.
  const QueryErrorNone: u32 := 0
  const QueryErrorSyntax: u32 := 1
  const QueryErrorNodeType: u32 := 2
  const QueryErrorField: u32 := 3
  const QueryErrorCapture: u32 := 4
  const QueryErrorStructure: u32 := 5
  const QueryErrorLanguage: u32 := 6

  /** A compiled query: the guest's handle. The zero value `Query{}` is `Query(0)`. */
  datatype Query = Query(q: u64)

  datatype QueryCursor = QueryCursor(qc: u64)

  /** A capture: its pattern-local index and a node that is a view into the match's capture array. */
  datatype QueryCapture = QueryCapture(id: u32, node: Node)

  datatype QueryMatch = QueryMatch(id: u32, patternIndex: u16, captures: seq<QueryCapture>)

  const ZeroMatch := QueryMatch(0, 0, [])

  /** The name `QueryErrorTypeToString` gives an error code; Structure, Language and unknown codes share "unknown". */
  function QueryErrorTypeToString(errorType: u32): (name: string)
    ensures name == "unknown" <==> errorType > QueryErrorCapture
    ensures '\n' !in name
  {
    match errorType
    case 0 => "none"
    case 2 => "node type"
    case 3 => "field"
    case 4 => "capture"
    case 1 => "syntax"
    case _ => "unknown"
  }

  /** The named codes have names of their own: no two of them share one. */
  lemma ErrorTypeNamesDistinct(a: u32, b: u32)
    requires a <= QueryErrorCapture && a != b
    ensures QueryErrorTypeToString(a) != QueryErrorTypeToString(b)
  {
  }

  /** The codes whose message quotes the identifier at the offset. */
  predicate IsIdentifierError(errorType: u32) {
    errorType == QueryErrorNodeType || errorType == QueryErrorField || errorType == QueryErrorCapture
  }

  /** Every character is a single byte, so byte offsets and rune offsets coincide. */
  predicate IsAscii(pattern: string) {
    forall i | 0 <= i < |pattern| :: pattern[i] as int < 0x80
  }

  /** The line `NewQuery` reports: one more than the number of newlines before the offset. */
  function ErrorLine(pattern: string, errorOffset: u32): (line: nat)
    requires errorOffset as int <= |pattern|
    ensures line >= 1
  {
    1 + multiset(pattern[..errorOffset])['\n']
  }

  /**
   * The index the `range` loop visited last: the loop overwrites
   * `line_start` with every index it visits, including the one it stops at,
   * so this is not the start of the line.
   */
  function LastVisited(pattern: string, errorOffset: u32): nat
    requires errorOffset as int <= |pattern|
  {
    if pattern == [] then 0
    else if errorOffset as int < |pattern| then errorOffset as nat
    else |pattern| - 1
  }

  /** The column `NewQuery` reports: only 0 or 1 for a non-empty pattern. */
  function ErrorColumn(pattern: string, errorOffset: u32): (column: nat)
    requires errorOffset as int <= |pattern|
    ensures pattern == [] ==> column == errorOffset as int
    ensures pattern != [] && errorOffset as int < |pattern| ==> column == 0
    ensures pattern != [] && errorOffset as int == |pattern| ==> column == 1
  {
    errorOffset as int - LastVisited(pattern, errorOffset)
  }

  /** The loop of `NewQuery` that computes `line` and `column`. */
  method LocateError(pattern: string, errorOffset: u32) returns (line: int, column: int)
    requires IsAscii(pattern) && errorOffset as int <= |pattern|
    ensures line == 1 + multiset(pattern[..errorOffset])['\n']
    ensures column == errorOffset as int - LastVisited(pattern, errorOffset)
  {
    line := 1;
    var lineStart := 0;
    var i := 0;
    while i < |pattern|
      invariant 0 <= i <= errorOffset as int
      invariant line == 1 + multiset(pattern[..i])['\n']
      invariant lineStart == if i == 0 then 0 else i - 1
    {
      lineStart := i;
      if i >= errorOffset as int {
        break;
      }
      assert pattern[..i + 1] == pattern[..i] + [pattern[i]];
      if pattern[i] == '\n' {
        line := line + 1;
      }
      i := i + 1;
    }
    column := errorOffset as int - lineStart;
  }

  /** The first line of every message, and the whole of it when there is nothing to quote. */
  function Header(kind: string, line: nat, column: nat): string {
    "invalid " + kind + " at line " + Decimal(line) + " column " + Decimal(column)
  }

  /** The message for an identifier error that found a token at the offset: the token in quotes. */
  function IdentifierMessage(kind: string, token: string, line: nat, column: nat): string {
    "invalid " + kind + " '" + token + "' at line " + Decimal(line) + " column " + Decimal(column)
  }

  /** The message for every other error: the header, the rest of the line from the offset, and a caret under the column. */
  function PositionalMessage(kind: string, line: nat, column: nat, excerpt: string): string {
    Header(kind, line, column) + "\n" + excerpt + "\n" + Spaces(column) + "^"
  }

  /** The message `NewQuery` returns for a rejected pattern. */
  function FormatQueryError(pattern: string, errorOffset: u32, errorType: u32): (message: string)
    requires IsAscii(pattern) && errorOffset as int <= |pattern|
    ensures IsIdentifierError(errorType) ==> '\n' !in message
  {
    var line := ErrorLine(pattern, errorOffset);
    var column := ErrorColumn(pattern, errorOffset);
    var kind := QueryErrorTypeToString(errorType);
    var rest := pattern[errorOffset..];
    if IsIdentifierError(errorType) then
      match MatchIdentifier(rest)
      case Some(token) => IdentifierMessage(kind, token, line, column)
      case None => Header(kind, line, column)
    else
      PositionalMessage(kind, line, column, SplitLines(rest)[0])
  }

  /** A header holds no newline. */
  lemma HeaderOneLine(kind: string, line: nat, column: nat)
    requires '\n' !in kind
    ensures '\n' !in Header(kind, line, column)
  {
    var l, c := Decimal(line), Decimal(column);
    assert forall i | 0 <= i < |l| :: l[i] != '\n';
    assert forall i | 0 <= i < |c| :: c[i] != '\n';
  }

  /**
   * A positional message is exactly three lines: the header, the rest of the
   * pattern from the offset up to the next newline, and `column` spaces
   * followed by a caret.
   */
  lemma PositionalErrorLines(pattern: string, errorOffset: u32, errorType: u32)
    requires IsAscii(pattern) && errorOffset as int <= |pattern|
    requires !IsIdentifierError(errorType)
    ensures var column := ErrorColumn(pattern, errorOffset);
            SplitLines(FormatQueryError(pattern, errorOffset, errorType))
            == [Header(QueryErrorTypeToString(errorType), ErrorLine(pattern, errorOffset), column),
                SplitLines(pattern[errorOffset..])[0],
                Spaces(column) + "^"]
    ensures var rest, excerpt := pattern[errorOffset..], SplitLines(pattern[errorOffset..])[0];
            excerpt <= rest && (|excerpt| == |rest| || rest[|excerpt|] == '\n')
  {
    FirstLine(pattern[errorOffset..]);
    var column := ErrorColumn(pattern, errorOffset);
    var h := Header(QueryErrorTypeToString(errorType), ErrorLine(pattern, errorOffset), column);
    var e := SplitLines(pattern[errorOffset..])[0];
    var c := Spaces(column) + "^";
    HeaderOneLine(QueryErrorTypeToString(errorType), ErrorLine(pattern, errorOffset), column);
    assert '\n' !in c;
    assert [h, e, c][1..] == [e, c] && [e, c][1..] == [c];
    assert JoinLines([e, c]) == e + "\n" + c;
    assert JoinLines([h, e, c]) == h + "\n" + (e + "\n" + c);
    assert FormatQueryError(pattern, errorOffset, errorType) == JoinLines([h, e, c]);
    SplitJoin([h, e, c]);
  }

  /** The quoted token is the longest identifier at the offset; no quote means no identifier starts there. */
  lemma IdentifierErrorToken(pattern: string, errorOffset: u32, errorType: u32, k: nat)
    requires IsAscii(pattern) && errorOffset as int <= |pattern|
    requires IsIdentifierError(errorType)
    requires errorOffset as int + k <= |pattern| && IsIdentifier(pattern[errorOffset..errorOffset as int + k])
    ensures var token := MatchIdentifier(pattern[errorOffset..]);
            token.Some? && k <= |token.value| && pattern[errorOffset..errorOffset as int + |token.value|] == token.value
            && FormatQueryError(pattern, errorOffset, errorType)
               == IdentifierMessage(QueryErrorTypeToString(errorType), token.value,
                                    ErrorLine(pattern, errorOffset), ErrorColumn(pattern, errorOffset))
  {
    var rest := pattern[errorOffset..];
    assert rest[..k] == pattern[errorOffset..errorOffset as int + k];
    LongestIdentifier(rest, k);
  }

  /** When no identifier starts at the offset, an identifier error is reported by the header alone. */
  lemma IdentifierErrorNoToken(pattern: string, errorOffset: u32, errorType: u32)
    requires IsAscii(pattern) && errorOffset as int <= |pattern|
    requires IsIdentifierError(errorType)
    requires errorOffset as int == |pattern| || !IsIdentifierStart(pattern[errorOffset])
    ensures FormatQueryError(pattern, errorOffset, errorType)
            == Header(QueryErrorTypeToString(errorType), ErrorLine(pattern, errorOffset), ErrorColumn(pattern, errorOffset))
  {
    var rest := pattern[errorOffset..];
    assert rest == [] || rest[0] == pattern[errorOffset];
  }

  /** "(a (b)" with a syntax error at its end: line 1 and, as the code computes it, column 1. */
  lemma UnclosedParenMessage()
    ensures FormatQueryError("(a (b)", 6, QueryErrorSyntax) == "invalid syntax at line 1 column 1\n\n ^"
  {
    assert "(a (b)"[..6] == "(a (b)";
    assert multiset("(a (b)")['\n'] == 0;
  }

  /** A node-type error at `b-c`, one character into line 2, quotes the identifier, hyphen included, yet reports column 0. */
  lemma NodeTypeMessage()
    ensures FormatQueryError("(a)\n(b-c)", 5, QueryErrorNodeType) == "invalid node type 'b-c' at line 2 column 0"
  {
    var p := "(a)\n(b-c)";
    assert FormatQueryError(p, 5, QueryErrorNodeType) == IdentifierMessage("node type", "b-c", 2, 0) by {
      assert ErrorLine(p, 5) == 2 by {
        assert p[..5] == "(a)\n(";
        assert multiset(p[..5])['\n'] == 1;
      }
      assert MatchIdentifier(p[5..]) == Some("b-c") by {
        assert p[5..][1..] == "-c)";
        IdentifierRunAt("-c)", 2);
        assert p[5..][..3] == "b-c";
      }
    }
    NodeTypeMessageText();
  }

  lemma NodeTypeMessageText()
    ensures IdentifierMessage("node type", "b-c", 2, 0) == "invalid node type 'b-c' at line 2 column 0"
  {
    assert Decimal(2) == "2" && Decimal(0) == "0";
  }

  /**
   * The last part of `NewQuery`: once the guest has compiled `pattern`, a
   * zero error type gives the query and no error, any other gives the zero
   * Query and the formatted message. The offset must lie inside the pattern,
   * or slicing it panics.
   */
  function NewQueryResult(queryPtr: u64, pattern: string, errorOffset: u32, errorType: u32): (r: (Query, Option<string>))
    requires errorType != QueryErrorNone ==> IsAscii(pattern) && errorOffset as int <= |pattern|
    ensures r.1.None? <==> errorType == QueryErrorNone
    ensures r.1.None? ==> r.0 == Query(queryPtr)
    ensures r.1.Some? ==> r.0 == Query(0) && r.1.value == FormatQueryError(pattern, errorOffset, errorType)
  {
    if errorType != QueryErrorNone then (Query(0), Some(FormatQueryError(pattern, errorOffset, errorType)))
    else (Query(queryPtr), None)
  }

  // Errors NextMatch reports for reads outside memory; the capture-count read reuses the pattern-index text.
  const ErrMatchId := "invalid query match id"
  const ErrPatternIndex := "invalid query match pattern index"
  const ErrCapturesPointer := "invalid query match captures pointer"
  const ErrCaptureIndex := "invalid capture index"

  /** Size of the match record and of one capture in the guest's layout. */
  const MatchRecordSize: u64 := 12
  const CaptureStride: nat := 28
  const CaptureIdOffset: nat := 24

  /** What NextMatch returns: a match, whether there was one, and an error. */
  datatype Decoded = Decoded(result: QueryMatch, more: bool, err: Option<string>)

  function Failed(message: string): Decoded {
    Decoded(ZeroMatch, false, Some(message))
  }

  /** Address of capture `i`: a uint32 advanced by 28 per capture, so it wraps. */
  function CaptureAddress(capturesPtr: u32, i: nat): u32 {
    Wrap32(capturesPtr + CaptureStride * i)
  }

  /** Capture `i` read in place: its id is the u32 at +24 and its node is its own address. */
  function CaptureAt(m: seq<u8>, capturesPtr: u32, i: nat): Option<QueryCapture> {
    var addr := CaptureAddress(capturesPtr, i);
    match ReadU32(m, Wrap32(addr + CaptureIdOffset))
    case None => None
    case Some(id) => Some(QueryCapture(id, Node(addr)))
  }

  predicate CapturesReadable(m: seq<u8>, capturesPtr: u32, count: nat) {
    forall i | 0 <= i < count :: CaptureAt(m, capturesPtr, i).Some?
  }

  /** The `count` captures starting at `capturesPtr`, or None when one of their ids lies outside memory. */
  function DecodeCaptures(m: seq<u8>, capturesPtr: u32, count: nat): (r: Option<seq<QueryCapture>>)
    ensures r.Some? <==> CapturesReadable(m, capturesPtr, count)
    ensures r.Some? ==> |r.value| == count
  {
    if CapturesReadable(m, capturesPtr, count) then
      Some(seq(count, i requires 0 <= i < count => CaptureAt(m, capturesPtr, i).value))
    else None
  }

  /**
   * Decoding the match record at `ptr`: id (u32 at +0), pattern index (u16
   * at +4), capture count (u16 at +6), captures pointer (u32 at +8), then
   * the captures. The first read that falls outside memory decides the error.
   */
  function DecodeQueryMatch(m: seq<u8>, ptr: u32): (d: Decoded)
    ensures d.more <==> d.err.None?
    ensures !d.more ==> d.result == ZeroMatch
  {
    match ReadU32(m, ptr)
    case None => Failed(ErrMatchId)
    case Some(id) =>
      match ReadU16(m, Wrap32(ptr + 4))
      case None => Failed(ErrPatternIndex)
      case Some(patternIndex) =>
        match ReadU16(m, Wrap32(ptr + 6))
        case None => Failed(ErrPatternIndex)
        case Some(count) =>
          match ReadU32(m, Wrap32(ptr + 8))
          case None => Failed(ErrCapturesPointer)
          case Some(capturesPtr) =>
            match DecodeCaptures(m, capturesPtr, count)
            case None => Failed(ErrCaptureIndex)
            case Some(captures) => Decoded(QueryMatch(id, patternIndex, captures), true, None)
  }

  /** The 12 bytes of a match record as the guest lays it out. */
  function EncodeMatchHeader(id: u32, patternIndex: u16, count: u16, capturesPtr: u32): (b: seq<u8>)
    ensures |b| == 12
  {
    EncodeU32(id) + EncodeU16(patternIndex) + EncodeU16(count) + EncodeU32(capturesPtr)
  }

  /** Memory `m` holds, at `ptr`, a record for a match with the given id, pattern index and capture ids. */
  ghost predicate HoldsMatch(m: seq<u8>, ptr: u32, id: u32, patternIndex: u16, capturesPtr: u32, ids: seq<u32>) {
    && |ids| < 0x1_0000
    && ptr as int + 12 <= |m|
    && m[ptr..ptr as int + 12] == EncodeMatchHeader(id, patternIndex, |ids|, capturesPtr)
    && capturesPtr as int + CaptureStride * |ids| <= |m|
    && forall i | 0 <= i < |ids| ::
         m[capturesPtr as int + CaptureStride * i + CaptureIdOffset..capturesPtr as int + CaptureStride * i + CaptureStride]
         == EncodeU32(ids[i])
  }

  /**
   * Decoding a record laid out by the guest gives back its fields; capture
   * `i` gets id `ids[i]` and the node handle `capturesPtr + 28 * i`.
   */
  lemma DecodeEncodedMatch(m: seq<u8>, ptr: u32, id: u32, patternIndex: u16, capturesPtr: u32, ids: seq<u32>)
    requires |m| <= MaxMemorySize
    requires HoldsMatch(m, ptr, id, patternIndex, capturesPtr, ids)
    ensures DecodeQueryMatch(m, ptr)
            == Decoded(QueryMatch(id, patternIndex,
                                  seq(|ids|, i requires 0 <= i < |ids| => QueryCapture(ids[i], Node(capturesPtr as int + CaptureStride * i)))),
                       true, None)
  {
    var header := m[ptr..ptr as int + 12];
    var a, b, c, d := EncodeU32(id), EncodeU16(patternIndex), EncodeU16(|ids|), EncodeU32(capturesPtr);
    assert header == a + b + c + d;
    assert header[..4] == a && header[4..6] == b && header[6..8] == c && header[8..12] == d;
    assert forall i | 0 <= i < 12 :: header[i] == m[ptr as int + i];
    assert m[ptr..ptr as int + 4] == header[..4];
    assert m[ptr as int + 4..ptr as int + 6] == header[4..6];
    assert m[ptr as int + 6..ptr as int + 8] == header[6..8];
    assert m[ptr as int + 8..ptr as int + 12] == header[8..12];
    DecodeEncodeU32(id);
    DecodeEncodeU16(patternIndex);
    DecodeEncodeU16(|ids|);
    DecodeEncodeU32(capturesPtr);
    forall i | 0 <= i < |ids|
      ensures CaptureAt(m, capturesPtr, i) == Some(QueryCapture(ids[i], Node(capturesPtr as int + CaptureStride * i)))
    {
      var addr := capturesPtr as int + CaptureStride * i;
      assert CaptureAddress(capturesPtr, i) == addr;
      DecodeEncodeU32(ids[i]);
    }
  }

  /**
   * The capture loop of `NextMatch`: walks the captures with a uint32
   * address advanced by 28, filling a slice of `count` captures, and stops
   * at the first id it cannot read.
   */
  method ReadCaptures(mem: array<u8>, capturesPtr: u32, count: u16) returns (captures: seq<QueryCapture>, ok: bool)
    ensures DecodeCaptures(mem[..], capturesPtr, count) == if ok then Some(captures) else None
  {
    ghost var contents := mem[..];
    var qcs := new QueryCapture[count](_ => QueryCapture(0, ZeroNode));
    var addr: u32 := capturesPtr;
    var i := 0;
    while i < count
      invariant 0 <= i <= count
      invariant addr == CaptureAddress(capturesPtr, i)
      invariant forall j | 0 <= j < i :: CaptureAt(contents, capturesPtr, j) == Some(qcs[j])
    {
      var captureIndex, okc := ReadUint32Le(mem, Wrap32(addr + CaptureIdOffset));
      if !okc {
        assert CaptureAt(contents, capturesPtr, i).None?;
        return [], false;
      }
      qcs[i] := QueryCapture(captureIndex, Node(addr));
      WrapStep(capturesPtr, i);
      addr := Wrap32(addr + CaptureStride);
      i := i + 1;
    }
    captures, ok := qcs[..], true;
    assert CapturesReadable(contents, capturesPtr, count);
    assert captures == seq(count, i requires 0 <= i < count => CaptureAt(contents, capturesPtr, i).value);
  }

  /** The decoding half of `NextMatch`: the header fields, then the captures. */
  method DecodeMatch(mem: array<u8>, ptr: u32) returns (m: QueryMatch, more: bool, err: Option<string>)
    ensures Decoded(m, more, err) == DecodeQueryMatch(mem[..], ptr)
  {
    var id, ok := ReadUint32Le(mem, ptr);
    if !ok {
      return ZeroMatch, false, Some(ErrMatchId);
    }
    var patternIndex, ok1 := ReadUint16Le(mem, Wrap32(ptr + 4));
    if !ok1 {
      return ZeroMatch, false, Some(ErrPatternIndex);
    }
    var count, ok2 := ReadUint16Le(mem, Wrap32(ptr + 6));
    if !ok2 {
      return ZeroMatch, false, Some(ErrPatternIndex);
    }
    var capturesPtr, ok3 := ReadUint32Le(mem, Wrap32(ptr + 8));
    if !ok3 {
      return ZeroMatch, false, Some(ErrCapturesPointer);
    }
    var captures, ok4 := ReadCaptures(mem, capturesPtr, count);
    if !ok4 {
      return ZeroMatch, false, Some(ErrCaptureIndex);
    }
    m, more, err := QueryMatch(id, patternIndex, captures), true, None;
  }

  /** Advancing a wrapped address by one stride is the wrapped address of the next capture. */
  lemma WrapStep(capturesPtr: u32, i: nat)
    ensures Wrap32(CaptureAddress(capturesPtr, i) + CaptureStride) == CaptureAddress(capturesPtr, i + 1)
  {
    var x := capturesPtr + CaptureStride * i;
    var q := x / 0x1_0000_0000;
    assert x == x % 0x1_0000_0000 + 0x1_0000_0000 * q;
    assert x % 0x1_0000_0000 + CaptureStride == (x + CaptureStride) - 0x1_0000_0000 * q;
  }

  /**
   * ts_query_cursor_next_match inside the guest. Its contract promises
   * nothing about the flag it returns or the bytes it writes, so NextMatch is
   * proved for every flag and every memory content; the body is one
   * admissible behaviour.
   */
  method CallQueryCursorNextMatch(t: Runtime.Treesitter, cursor: u64, matchPtr: u64) returns (flag: u64, err: Option<string>)
    modifies t.memory
  {
    flag, err := 0, None;
  }

  /** `allocateQueryMatch`: a 12-byte block for the guest's match record. */
  method AllocateQueryMatch(t: Runtime.Treesitter) returns (ptr: u64, err: Option<string>)
    requires t.Valid()
    modifies t`live, t`top
    ensures t.Valid()
    ensures err.None? ==> 0 < ptr < 0x1_0000_0000 && ptr !in old(t.live) && t.live == old(t.live)[ptr := MatchRecordSize]
    ensures err.Some? ==> ptr == 0 && t.live == old(t.live) && "allocating query match: " <= err.value
  {
    var mallocErr;
    ptr, mallocErr := t.Malloc(MatchRecordSize);
    if mallocErr.Some? {
      return 0, Some("allocating query match: " + mallocErr.value);
    }
    err := None;
  }

  /**
   * `NextMatch`: allocates the 12-byte record, lets the guest fill it, and
   * decodes it unless the guest reported no further match. `flag` (ghost)
   * is the guest's answer, None when the allocation or the call failed.
   */
  method NextMatch(t: Runtime.Treesitter, qc: QueryCursor)
    returns (m: QueryMatch, more: bool, err: Option<string>, ghost matchPtr: u64, ghost flag: Option<u64>)
    requires t.Valid()
    modifies t`live, t`top, t.memory
    ensures t.Valid()
    ensures matchPtr == 0 ==> flag.None? && t.live == old(t.live) && t.memory[..] == old(t.memory[..])
                              && err.Some? && "allocating query match: " <= err.value
    ensures matchPtr != 0 ==> matchPtr !in old(t.live) && t.live == old(t.live)[matchPtr := MatchRecordSize]
    ensures matchPtr != 0 && flag.None? ==> err.Some? && "getting query cursor next match: " <= err.value
    ensures flag.None? ==> err.Some? && !more && m == ZeroMatch
    ensures flag == Some(0) ==> err.None? && !more && m == ZeroMatch
    ensures flag.Some? && flag.value != 0 ==>
              Decoded(m, more, err) == DecodeQueryMatch(t.memory[..], Wrap32(matchPtr))
  {
    matchPtr, flag := 0, None;
    var queryMatchPtr, allocErr := AllocateQueryMatch(t);
    if allocErr.Some? {
      return ZeroMatch, false, allocErr, matchPtr, flag;
    }
    matchPtr := queryMatchPtr;
    var hasNextMatch, callErr := CallQueryCursorNextMatch(t, qc.qc, queryMatchPtr);
    if callErr.Some? {
      return ZeroMatch, false, Some("getting query cursor next match: " + callErr.value), matchPtr, flag;
    }
    flag := Some(hasNextMatch);
    if hasNextMatch == 0 {
      return ZeroMatch, false, None, matchPtr, flag;
    }
    m, more, err := DecodeMatch(t.memory, Wrap32(queryMatchPtr));
  }
}
