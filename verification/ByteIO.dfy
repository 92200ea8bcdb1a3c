/** The descriptor loops of src/util.c: `write_bytes`, `read_bytes` and
    `read_line` over `read`/`write` calls that may be short, be interrupted or
    fail. Bytes are `char`s. */
module ByteIO {
  import opened Types

  function Min(a: int, b: int): int { if a < b then a else b }

  predicate IsTerminator(c: char) { c == '\n' || c == '\0' }

  ghost predicate Clean(s: string) { forall i :: 0 <= i < |s| ==> !IsTerminator(s[i]) }

  /** The position of the first terminator of `s`, or |s| when there is none. */
  function LineEnd(s: string): (k: nat)
    ensures k <= |s| && Clean(s[..k])
    ensures k < |s| ==> IsTerminator(s[k])
  {
    if s == "" || IsTerminator(s[0]) then 0 else
      var k := LineEnd(s[1..]);
      assert forall i :: 1 <= i < k + 1 ==> s[i] == s[1..][..k][i - 1];
      k + 1
  }

  /** A file or socket descriptor: what is left to read, what has been
      written, and how many interruptions are still to come. */
  class Descriptor {
    var input: string
    var output: string
    var interrupts: nat
    /** How often `read` and `write` have failed, other than by interruption. */
    ghost var readFailures: nat
    ghost var writeFailures: nat

    constructor (input: string, interrupts: nat)
      ensures this.input == input && output == "" && this.interrupts == interrupts
      ensures readFailures == writeFailures == 0
    {
      this.input, this.output, this.interrupts := input, "", interrupts;
      readFailures, writeFailures := 0, 0;
    }

    /** POSIX `read`: any positive part of what is available, 0 at the end, or
        -1 with or without EINTR. */
    method Read(space: nat) returns (n: int, bytes: string, eintr: bool)
      requires space > 0
      modifies this`input, this`interrupts, this`readFailures
      ensures n == -1 || n == |bytes|
      ensures readFailures == old(readFailures) + if n == -1 && !eintr then 1 else 0
      ensures n == -1 ==> input == old(input) && interrupts == old(interrupts) - (if eintr then 1 else 0)
      ensures n != -1 ==> old(input) == bytes + input && interrupts == old(interrupts)
      ensures n != -1 ==> n <= space && (n == 0 <==> old(input) == "")
    {
      var outcome: int := *;
      eintr := false;
      if outcome == 0 && interrupts > 0 {
        interrupts := interrupts - 1;
        return -1, "", true;
      } else if outcome == 1 {
        readFailures := readFailures + 1;
        return -1, "", false;
      } else if input == "" {
        return 0, "", false;
      }
      var most := if space < |input| then space else |input|;
      n :| 1 <= n <= most;
      bytes, input := input[..n], input[n..];
    }

    /** POSIX `write`: any positive part of `bytes`, or -1. */
    method Write(bytes: string) returns (n: int)
      requires bytes != ""
      modifies this`output, this`writeFailures
      ensures n == -1 || 1 <= n <= |bytes|
      ensures writeFailures == old(writeFailures) + if n == -1 then 1 else 0
      ensures output == if n == -1 then old(output) else old(output) + bytes[..n]
    {
      var fails: bool := *;
      if fails {
        writeFailures := writeFailures + 1;
        return -1;
      }
      n :| 1 <= n <= |bytes|;
      output := output + bytes[..n];
    }
  }

  /** `write_bytes`: full length means every byte went out in order, whatever
      the sizes of the single writes; an error leaves a prefix, and is returned
      exactly when a write failed. */
  method WriteBytes(d: Descriptor, buffer: string, len: int) returns (result: int)
    requires len <= |buffer|
    modifies d`output, d`writeFailures
    ensures d.writeFailures >= old(d.writeFailures)
    ensures result == if len <= 0 then GEN_ERR_INV_ARGS
                      else if d.writeFailures > old(d.writeFailures) then GEN_ERR_ANY else len
    ensures len <= 0 ==> d.output == old(d.output)
    ensures 0 < len == result ==> d.output == old(d.output) + buffer[..len]
    ensures result == GEN_ERR_ANY ==> exists k :: 0 <= k < len && d.output == old(d.output) + buffer[..k]
  {
    if len <= 0 {
      return GEN_ERR_INV_ARGS;
    }
    var total := 0;
    while total < len
      invariant 0 <= total <= len && d.writeFailures == old(d.writeFailures)
      invariant d.output == old(d.output) + buffer[..total]
    {
      var written := d.Write(buffer[total..len]);
      if written < 0 {
        return GEN_ERR_ANY;
      }
      assert buffer[..total] + buffer[total..len][..written] == buffer[..total + written];
      total := total + written;
    }
    return total;
  }

  /** One more chunk of a stream. */
  lemma Chunk(all: string, at: nat, bytes: string, rest: string)
    requires at <= |all| && all[at..] == bytes + rest
    ensures at + |bytes| <= |all|
    ensures all[..at + |bytes|] == all[..at] + bytes && all[at + |bytes|..] == rest
  {
    assert all == all[..at] + (bytes + rest);
    assert all == (all[..at] + bytes) + rest;
  }

  /** The bytes `read` leaves in the caller's buffer from position `at`. */
  method CopyInto(buffer: array<char>, at: nat, bytes: string)
    requires at + |bytes| <= buffer.Length
    modifies buffer
    ensures buffer[..at + |bytes|] == old(buffer[..at]) + bytes
    ensures buffer[at + |bytes|..] == old(buffer[at..])[|bytes|..]
  {
    forall i | 0 <= i < |bytes| {
      buffer[at + i] := bytes[i];
    }
    assert forall i :: at <= i < at + |bytes| ==> buffer[i] == bytes[i - at];
  }

  /** `read_bytes`: the longest available prefix of at most `len` bytes,
      however it is chunked. Unlike `read_line` it gives up on an interruption
      as on any failed read. */
  method ReadBytes(d: Descriptor, buffer: array<char>, len: int) returns (result: int)
    requires len <= buffer.Length
    modifies d`input, d`interrupts, d`readFailures, buffer
    ensures d.readFailures >= old(d.readFailures) && d.interrupts <= old(d.interrupts)
    ensures result == GEN_ERR_INV_ARGS <==> len <= 0
    ensures result == GEN_ERR_ANY <==>
              d.readFailures > old(d.readFailures) || d.interrupts < old(d.interrupts)
    ensures len <= 0 ==> d.input == old(d.input) && buffer[..] == old(buffer[..])
    ensures result >= GEN_ERR_INV_ARGS
    ensures result >= 0 ==>
              && result == Min(len, |old(d.input)|)
              && buffer[..result] == old(d.input)[..result]
              && buffer[result..] == old(buffer[result..])
              && d.input == old(d.input)[result..]
  {
    if len <= 0 {
      return GEN_ERR_INV_ARGS;
    }
    var total := 0;
    while total < len
      invariant 0 <= total <= Min(len, |old(d.input)|)
      invariant d.readFailures == old(d.readFailures) && d.interrupts == old(d.interrupts)
      invariant buffer[..total] == old(d.input)[..total]
      invariant buffer[total..] == old(buffer[..])[total..]
      invariant d.input == old(d.input)[total..]
    {
      var n, bytes, eintr := d.Read(len - total);
      if n < 0 {
        return GEN_ERR_ANY;
      }
      if n == 0 {
        break;
      }
      Chunk(old(d.input), total, bytes, d.input);
      CopyInto(buffer, total, bytes);
      total := total + n;
    }
    return total;
  }

  lemma EndsHere(all: string, seen: nat)
    requires seen <= LineEnd(all) && (seen == |all| || IsTerminator(all[seen]))
    ensures LineEnd(all) == seen
  {
    var k := LineEnd(all);
    forall i | 0 <= i < k ensures !IsTerminator(all[i]) {
      assert all[..k][i] == all[i];
    }
  }

  /** `read_line`: the first min(length, bufSpace - 1) bytes of the line are
      kept with a closing NUL, and the whole line is consumed through its
      terminator, whatever is interrupted: an error is returned exactly when a
      read failed otherwise. Without a terminator the line ends
      where the stream does; if nothing was kept then, the buffer is untouched. */
  method ReadLine(d: Descriptor, buffer: array<char>, bufSpace: int) returns (result: int)
    requires bufSpace <= buffer.Length
    modifies d`input, d`interrupts, d`readFailures, buffer
    ensures d.readFailures >= old(d.readFailures)
    ensures result == GEN_ERR_INV_ARGS <==> bufSpace <= 0
    ensures result == GEN_ERR_ANY <==> d.readFailures > old(d.readFailures)
    ensures bufSpace <= 0 ==> d.input == old(d.input) && buffer[..] == old(buffer[..])
    ensures result >= GEN_ERR_INV_ARGS
    ensures result >= 0 ==>
              var k := LineEnd(old(d.input));
              var ended := k < |old(d.input)|;
              && result == Min(k, bufSpace - 1)
              && buffer[..result] == old(d.input)[..result]
              && d.input == old(d.input)[if ended then k + 1 else k..]
              && (ended || result > 0 ==> buffer[result] == '\0')
              && (!ended && result == 0 ==> buffer[..] == old(buffer[..]))
    ensures result == GEN_ERR_ANY ==>
              exists k :: 0 <= k <= LineEnd(old(d.input)) && d.input == old(d.input)[k..]
  {
    if bufSpace <= 0 {
      return GEN_ERR_INV_ARGS;
    }
    var total := 0;
    ghost var all, seen := d.input, 0;
    while true
      invariant 0 <= seen <= LineEnd(all) && d.readFailures == old(d.readFailures)
      invariant total == Min(seen, bufSpace - 1)
      invariant d.input == all[seen..]
      invariant buffer[..total] == all[..total]
      invariant total == 0 ==> buffer[..] == old(buffer[..])
      decreases |d.input| + d.interrupts
    {
      var n, bytes, eintr := d.Read(1);
      if n == -1 {
        if eintr {
          continue;
        }
        return GEN_ERR_ANY;
      } else if n == 0 {
        EndsHere(all, seen);
        if total == 0 {
          return 0;
        }
        break;
      }
      Chunk(all, seen, bytes, d.input);
      var ch := bytes[0];
      assert ch == all[seen];
      if IsTerminator(ch) {
        EndsHere(all, seen);
        break;
      }
      if total < bufSpace - 1 {
        buffer[total] := ch;
        assert all[..total + 1] == all[..total] + [ch];
        total := total + 1;
      }
      seen := seen + 1;
    }
    buffer[total] := '\0';
    return total;
  }

  /** `write_entry`: success means every byte of the entry is in the file. */
  method WriteEntry(file: Descriptor, entry: string) returns (result: int)
    requires entry != ""
    modifies file`output, file`writeFailures
    ensures file.writeFailures >= old(file.writeFailures)
    ensures result == if file.writeFailures > old(file.writeFailures) then DBMS_ERR_ANY else DBMS_SUCCESS
    ensures result == DBMS_SUCCESS ==> file.output == old(file.output) + entry
    ensures result == DBMS_ERR_ANY ==>
              exists k :: 0 <= k < |entry| && file.output == old(file.output) + entry[..k]
  {
    var written := WriteBytes(file, entry, |entry|);
    if written == -1 {
      return DBMS_ERR_ANY;
    }
    assert entry[..|entry|] == entry;
    return DBMS_SUCCESS;
  }

  /** `read_entry`: an error, or nothing to read, is reported; otherwise the
      entry holds what the file has, up to its own size, over what it held. */
  method ReadEntry(file: Descriptor, entry: array<char>) returns (result: int)
    requires entry.Length > 0
    modifies file`input, file`interrupts, file`readFailures, entry
    ensures file.readFailures >= old(file.readFailures) && file.interrupts <= old(file.interrupts)
    ensures result == DBMS_SUCCESS || result == DBMS_ERR_ANY
    ensures result == DBMS_ERR_ANY <==>
              || old(file.input) == ""
              || file.readFailures > old(file.readFailures) || file.interrupts < old(file.interrupts)
    ensures result == DBMS_SUCCESS ==>
              var k := Min(entry.Length, |old(file.input)|);
              && entry[..] == old(file.input)[..k] + old(entry[k..])
              && file.input == old(file.input)[k..]
  {
    var n := ReadBytes(file, entry, entry.Length);
    if n == -1 {
      return DBMS_ERR_ANY;
    } else if n == 0 {
      return DBMS_ERR_ANY;
    }
    assert entry[..] == entry[..n] + entry[n..];
    return DBMS_SUCCESS;
  }

  /** An entry saved with `write_entry` to an empty file and loaded from it with
      `read_entry` comes back byte for byte, for every pattern of short writes
      and reads, unless a write or a read failed. */
  method SaveAndLoad(file: Descriptor, entry: string) returns (saved: int, loaded: int, copy: array<char>)
    requires entry != "" && file.output == ""
    modifies file
    ensures fresh(copy) && copy.Length == |entry|
    ensures saved == if file.writeFailures > old(file.writeFailures) then DBMS_ERR_ANY else DBMS_SUCCESS
    ensures saved == DBMS_SUCCESS ==>
              loaded == if file.readFailures > old(file.readFailures) || file.interrupts < old(file.interrupts)
                        then DBMS_ERR_ANY else DBMS_SUCCESS
    ensures saved == DBMS_SUCCESS && loaded == DBMS_SUCCESS ==> copy[..] == entry
  {
    copy := new char[|entry|];
    loaded := DBMS_ERR_ANY;
    saved := WriteEntry(file, entry);
    if saved == DBMS_SUCCESS {
      file.input := file.output;
      loaded := ReadEntry(file, copy);
      if loaded == DBMS_SUCCESS {
        assert copy[..] == entry[..|entry|];
      }
    }
  }
}
