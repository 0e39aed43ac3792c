/** The backward line scan of the Claude adapter (`previousLineStart` in internal/adapters/claude/claude.go). */
module LineScan {
  import opened Wrappers
  import opened RecordReader

  /** `start` begins the line whose newline is the byte before `offset`. */
  predicate StartsLine(file: seq<byte>, start: nat, offset: nat)
    requires 0 < offset <= |file|
  {
    && start < offset
    && (start == 0 || file[start - 1] == NEWLINE)
    && forall k :: start <= k < offset - 1 ==> file[k] != NEWLINE
  }

  method PreviousLineStart(file: seq<byte>, offset: int, chunkSize: nat) returns (result: Result<nat, string>)
    requires chunkSize > 0
    ensures offset <= 0 ==> result == Ok(0)
    ensures offset > |file| ==> result.Err?
    ensures 0 < offset <= |file| ==>
      result.Ok? && (file[offset - 1] != NEWLINE ==> result.value == offset)
    ensures 0 < offset <= |file| && file[offset - 1] == NEWLINE ==>
      forall start: nat :: StartsLine(file, start, offset) <==> start == result.value
  {
    if offset <= 0 {
      return Ok(0);
    }
    if offset > |file| {
      return Err("EOF");
    }
    if file[offset - 1] != NEWLINE {
      return Ok(offset);
    }
    var position := offset;
    var newlines := 0;
    while position > 0
      invariant 0 <= position <= offset
      invariant newlines == if position < offset then 1 else 0
      invariant forall k :: position <= k < offset - 1 ==> file[k] != NEWLINE
    {
      var readSize := Min(chunkSize, position);
      position := position - readSize;
      var buffer := file[position..position + readSize];
      var index := readSize - 1;
      while index >= 0
        invariant -1 <= index < readSize
        invariant newlines == if position + index + 1 < offset then 1 else 0
        invariant forall k :: position + index < k < offset - 1 ==> file[k] != NEWLINE
      {
        if buffer[index] == NEWLINE {
          newlines := newlines + 1;
          if newlines == 2 {
            return Ok(position + index + 1);
          }
        }
        index := index - 1;
      }
    }
    result := Ok(0);
  }
}
