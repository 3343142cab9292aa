/**
 * Word-granular copies between the simulator and a traced process.
 *
 * The traced process is reached only through 8-byte peeks and pokes, so both copies
 * walk the range word by word and treat the last, partial word specially.
 */
module TraceeMemory {
  import opened Base

  const WORDSIZE: nat := 8

  /** What a failed peek hands back: the wrapper's -1, all bits set. */
  const ALL_ONES: seq<Byte> := [255, 255, 255, 255, 255, 255, 255, 255]

  type Memory = map<int, Byte>

  /** The eight bytes from `a` on are mapped. */
  ghost predicate WordMapped(mem: Memory, a: int) {
    forall j :: a <= j < a + WORDSIZE ==> j in mem
  }

  /** Every byte of [a, a + n) is mapped. */
  ghost predicate Mapped(mem: Memory, a: int, n: nat) {
    forall j :: a <= j < a + n ==> j in mem
  }

  /** The byte a load of a range starting at `from` delivers at offset `k`: the byte's whole word must be mapped. */
  ghost function Loaded(mem: Memory, from: int, k: nat): Byte {
    var w := from + k - k % WORDSIZE;
    if WordMapped(mem, w) then mem[from + k] else 255
  }

  /** The memory in which exactly [to, to + |bytes|) has been replaced. */
  ghost function Stored(mem: Memory, to: int, bytes: seq<Byte>): Memory {
    map a | a in mem :: if to <= a < to + |bytes| then bytes[a - to] else mem[a]
  }

  class Tracee {
    var mem: Memory

    constructor (mem: Memory)
      ensures this.mem == mem
    {
      this.mem := mem;
    }

    /** PTRACE_PEEKDATA: the word at `a`, or all ones with errno set. */
    method Peek(a: int) returns (word: seq<Byte>, errno: bool)
      ensures |word| == WORDSIZE
      ensures errno <==> !WordMapped(mem, a)
      ensures !errno ==> forall j :: 0 <= j < WORDSIZE ==> a + j in mem && word[j] == mem[a + j]
      ensures errno ==> word == ALL_ONES
    {
      if a in mem && a + 1 in mem && a + 2 in mem && a + 3 in mem
         && a + 4 in mem && a + 5 in mem && a + 6 in mem && a + 7 in mem {
        word := [mem[a], mem[a + 1], mem[a + 2], mem[a + 3], mem[a + 4], mem[a + 5], mem[a + 6], mem[a + 7]];
        errno := false;
        assert WordMapped(mem, a);
      } else {
        word, errno := ALL_ONES, true;
        assert !WordMapped(mem, a);
      }
    }

    /** PTRACE_POKEDATA: replaces the word at `a`, or fails and changes nothing. */
    method Poke(a: int, word: seq<Byte>) returns (failed: bool)
      requires |word| == WORDSIZE
      modifies this
      ensures failed <==> !WordMapped(old(mem), a)
      ensures mem == if failed then old(mem) else Stored(old(mem), a, word)
    {
      if a in mem && a + 1 in mem && a + 2 in mem && a + 3 in mem
         && a + 4 in mem && a + 5 in mem && a + 6 in mem && a + 7 in mem {
        assert WordMapped(mem, a);
        mem := mem[a := word[0]][a + 1 := word[1]][a + 2 := word[2]][a + 3 := word[3]]
                  [a + 4 := word[4]][a + 5 := word[5]][a + 6 := word[6]][a + 7 := word[7]];
        assert mem == Stored(old(mem), a, word);
        failed := false;
      } else {
        failed := true;
        assert !WordMapped(mem, a);
      }
    }

    /** Copies `len` bytes at `from` into the head of `to`; errno is never looked at. */
    method MemcpyFromTracee(to: array<Byte>, from: int, len: nat) returns (i: nat)
      requires len <= to.Length
      modifies to
      ensures i == RoundUp8(len)
      ensures forall k :: 0 <= k < len ==> to[k] == Loaded(mem, from, k)
      ensures forall k :: len <= k < to.Length ==> to[k] == old(to[k])
    {
      i := 0;
      while i < len
        invariant i % WORDSIZE == 0 && i < len + WORDSIZE
        invariant forall k :: 0 <= k < i && k < len ==> to[k] == Loaded(mem, from, k)
        invariant forall k :: i <= k < to.Length || len <= k < to.Length ==> to[k] == old(to[k])
      {
        var tmp, _ := Peek(from + i);
        var n := if i + WORDSIZE <= len then WORDSIZE else len % WORDSIZE;
        assert n == if i + WORDSIZE <= len then WORDSIZE else len - i;
        forall j | 0 <= j < n {
          to[i + j] := tmp[j];
        }
        forall k | i <= k < i + n
          ensures to[k] == Loaded(mem, from, k)
        {
          assert k - k % WORDSIZE == i;
          assert to[k] == tmp[k - i];
        }
        i := i + WORDSIZE;
      }
    }

    /** The last, incomplete word: what lies behind the bytes in memory is written back with them. */
    method PokeTail(to: int, tail: seq<Byte>, i: nat, ghost was: Memory, ghost bytes: seq<Byte>) returns (failed: bool)
      requires CopiedUpTo(was, mem, to, bytes, i) && i % WORDSIZE == 0 && i < |bytes| < i + WORDSIZE &&
               tail == bytes[i..]
      modifies this
      ensures failed <==> !WordMapped(old(mem), to + i)
      ensures !failed ==> CopiedUpTo(was, mem, to, bytes, i + WORDSIZE)
    {
      var tmp, errno := Peek(to + i);
      if errno {
        return true;
      }
      TailCopied(was, mem, to, bytes, i, tmp[|tail|..]);
      failed := Poke(to + i, tail + tmp[|tail|..]);
    }

    /** Copies the first `len` bytes of `from` to `to`. None: a peek or poke failed and the simulator exited. */
    method MemcpyToTracee(to: int, from: array<Byte>, len: nat) returns (copied: Option<nat>)
      requires len <= from.Length
      modifies this
      ensures copied.Some? <==> Mapped(old(mem), to, RoundUp8(len))
      ensures copied.Some? ==> copied.value == RoundUp8(len)
      ensures copied.Some? ==> mem == Stored(old(mem), to, from[..len])
    {
      var i := 0;
      ghost var bytes := from[..len];
      CopyStarts(mem, to, bytes);
      while i < len
        invariant i % WORDSIZE == 0 && i < len + WORDSIZE
        invariant CopiedUpTo(old(mem), mem, to, bytes, i)
      {
        CopyNeedsWord(old(mem), mem, to, bytes, i);
        var failed;
        if i + WORDSIZE <= len {
          assert from[i..i + WORDSIZE] == bytes[i..i + WORDSIZE];
          WordCopied(old(mem), mem, to, bytes, i);
          failed := Poke(to + i, from[i..i + WORDSIZE]);
        } else {
          assert from[i..len] == bytes[i..];
          failed := PokeTail(to, from[i..len], i, old(mem), bytes);
        }
        if failed {
          return None;
        }
        i := i + WORDSIZE;
      }
      CopyEnds(old(mem), mem, to, bytes, i);
      copied := Some(i);
    }
  }

  // ---- The store loop --------------------------------------------------------------------

  /** The words below offset `i` have been written, as far as there are bytes for them. */
  ghost predicate CopiedUpTo(was: Memory, mem: Memory, to: int, bytes: seq<Byte>, i: nat) {
    Mapped(was, to, i) && mem == Stored(was, to, bytes[..if i <= |bytes| then i else |bytes|])
  }

  lemma CopyStarts(mem: Memory, to: int, bytes: seq<Byte>)
    ensures CopiedUpTo(mem, mem, to, bytes, 0)
  {
    assert mem == Stored(mem, to, bytes[..0]);
  }

  lemma CopyEnds(was: Memory, mem: Memory, to: int, bytes: seq<Byte>, i: nat)
    requires CopiedUpTo(was, mem, to, bytes, i) && |bytes| <= i < |bytes| + WORDSIZE && i % WORDSIZE == 0
    ensures i == RoundUp8(|bytes|) && Mapped(was, to, RoundUp8(|bytes|)) && mem == Stored(was, to, bytes)
  {
    assert bytes[..|bytes|] == bytes;
  }

  /** A word that is not there now was not there before, and the copy needs it. */
  lemma CopyNeedsWord(was: Memory, mem: Memory, to: int, bytes: seq<Byte>, i: nat)
    requires CopiedUpTo(was, mem, to, bytes, i) && i < |bytes| && i % WORDSIZE == 0
    ensures !WordMapped(mem, to + i) ==> !Mapped(was, to, RoundUp8(|bytes|))
  {
    RoundUpCovers(|bytes|, i);
    assert forall a :: a in mem <==> a in was;
  }

  lemma MoreMapped(was: Memory, mem: Memory, to: int, i: nat)
    requires Mapped(was, to, i) && mem.Keys == was.Keys
    ensures WordMapped(mem, to + i) ==> Mapped(was, to, i + WORDSIZE)
  {
    assert forall a :: a in was <==> a in mem.Keys;
  }

  lemma WordCopied(was: Memory, mem: Memory, to: int, bytes: seq<Byte>, i: nat)
    requires CopiedUpTo(was, mem, to, bytes, i) && i + WORDSIZE <= |bytes|
    ensures WordMapped(mem, to + i) ==>
              CopiedUpTo(was, Stored(mem, to + i, bytes[i..i + WORDSIZE]), to, bytes, i + WORDSIZE)
  {
    MoreMapped(was, mem, to, i);
    assert bytes[..i] + bytes[i..i + WORDSIZE] == bytes[..i + WORDSIZE];
    StoredTwice(was, to, bytes[..i], bytes[i..i + WORDSIZE]);
  }

  /** The last word is written back with what was read behind the tail. */
  lemma TailCopied(was: Memory, mem: Memory, to: int, bytes: seq<Byte>, i: nat, kept: seq<Byte>)
    requires CopiedUpTo(was, mem, to, bytes, i) && i < |bytes| < i + WORDSIZE && WordMapped(mem, to + i)
    requires |kept| == i + WORDSIZE - |bytes|
    requires forall j :: 0 <= j < |kept| ==> to + |bytes| + j in mem && kept[j] == mem[to + |bytes| + j]
    ensures CopiedUpTo(was, Stored(mem, to + i, bytes[i..] + kept), to, bytes, i + WORDSIZE)
  {
    MoreMapped(was, mem, to, i);
    assert bytes[..i] + bytes[i..] == bytes[..|bytes|];
    TailKept(was, to, bytes[..i], bytes[i..], kept);
  }

  /** The word at a word boundary below `len` lies inside the rounded-up range. */
  lemma RoundUpCovers(len: nat, i: nat)
    requires i < len && i % WORDSIZE == 0
    ensures i + WORDSIZE <= RoundUp8(len)
    ensures i + WORDSIZE <= len || len % WORDSIZE == len - i
  {
  }

  lemma StoredTwice(mem: Memory, to: int, head: seq<Byte>, next: seq<Byte>)
    ensures Stored(Stored(mem, to, head), to + |head|, next) == Stored(mem, to, head + next)
  {
    var l, r := Stored(Stored(mem, to, head), to + |head|, next), Stored(mem, to, head + next);
    forall a | a in mem ensures l[a] == r[a] {
      if to + |head| <= a < to + |head| + |next| {
        assert (head + next)[a - to] == next[a - to - |head|];
      } else if to <= a < to + |head| {
        assert (head + next)[a - to] == head[a - to];
      }
    }
  }

  /** Writing back what was read behind the tail leaves the tail's neighbours alone. */
  lemma TailKept(mem: Memory, to: int, head: seq<Byte>, tail: seq<Byte>, kept: seq<Byte>)
    requires forall j :: 0 <= j < |kept| ==>
                           to + |head| + |tail| + j in mem && kept[j] == Stored(mem, to, head)[to + |head| + |tail| + j]
    ensures Stored(Stored(mem, to, head), to + |head|, tail + kept) == Stored(mem, to, head + tail)
  {
    var l, r := Stored(Stored(mem, to, head), to + |head|, tail + kept), Stored(mem, to, head + tail);
    forall a | a in mem ensures l[a] == r[a] {
      var k := a - to - |head|;
      if 0 <= k < |tail| {
        assert (tail + kept)[k] == tail[k];
      } else if |tail| <= k < |tail| + |kept| {
        assert (tail + kept)[k] == kept[k - |tail|];
      } else if to <= a < to + |head| {
        assert (head + tail)[a - to] == head[a - to];
      }
    }
  }

  /** Storing and then loading gives the bytes back, for every length. */
  lemma StoreThenLoad(mem: Memory, at: int, bytes: seq<Byte>, k: nat)
    requires Mapped(mem, at, RoundUp8(|bytes|))
    requires k < |bytes|
    ensures Loaded(Stored(mem, at, bytes), at, k) == bytes[k]
  {
    var after := Stored(mem, at, bytes);
    var w := k - k % WORDSIZE;
    RoundUpCovers(|bytes|, w);
    forall j | at + w <= j < at + w + WORDSIZE ensures j in after {
      assert j in mem;
    }
    assert WordMapped(after, at + k - k % WORDSIZE);
  }

  /**
   * A load is faithful for whatever the range contains exactly when the words it
   * peeks are mapped: mapping the `len` requested bytes alone is not enough.
   */
  lemma LoadFaithfulIff(mem: Memory, from: int, len: nat)
    requires Mapped(mem, from, len)
    ensures Mapped(mem, from, RoundUp8(len)) <==>
            forall bytes: seq<Byte>, k :: |bytes| == len && 0 <= k < len ==>
                                            Loaded(Stored(mem, from, bytes), from, k) == bytes[k]
  {
    if Mapped(mem, from, RoundUp8(len)) {
      forall bytes: seq<Byte>, k | |bytes| == len && 0 <= k < len
        ensures Loaded(Stored(mem, from, bytes), from, k) == bytes[k]
      {
        StoreThenLoad(mem, from, bytes, k);
      }
    } else {
      var j :| from <= j < from + RoundUp8(len) && j !in mem;
      var zeros := seq(len, i => 0 as Byte);
      var k := len - 1;
      var w := from + k - k % WORDSIZE;
      assert j < w + WORDSIZE;
      assert j >= w;
      assert j !in Stored(mem, from, zeros) && w <= j < w + WORDSIZE;
      assert Loaded(Stored(mem, from, zeros), from, k) != zeros[k];
    }
  }

  // ---- The bit-mask form of the alignment -------------------------------------------------------

  /** Bitwise and of two unsigned numbers. */
  function BitAnd(a: nat, b: nat): nat {
    if a == 0 then 0 else a % 2 * (b % 2) + 2 * BitAnd(a / 2, b / 2)
  }

  function Ones(n: nat): nat {
    if n == 0 then 0 else 1 + 2 * Ones(n - 1)
  }

  /** A number that fits under a mask of ones is what the mask leaves of it. */
  lemma {:induction false} AndOnes(a: nat, n: nat)
    requires a <= Ones(n)
    ensures BitAnd(a, Ones(n)) == a
  {
    if a != 0 {
      assert Ones(n) / 2 == Ones(n - 1) && Ones(n) % 2 == 1;
      AndOnes(a / 2, n - 1);
    }
  }

  /** A zero at the end of the mask clears the last bit and leaves the rest to the rest. */
  lemma AndDouble(a: nat, b: nat)
    ensures BitAnd(a, 2 * b) == 2 * BitAnd(a / 2, b)
  {
    assert (2 * b) % 2 == 0 && 2 * b / 2 == b;
  }

  /**
   * Clearing the last three bits of x + 7, in words of `bits` bits, is the rounding that the copies return, for every
   * x that does not wrap around.
   */
  lemma AlignBitMask(x: nat, bits: nat)
    requires bits >= 3 && x + 7 <= Ones(bits)
    ensures Ones(3) == 7 && BitAnd(x + 7, Ones(bits) - 7) == RoundUp8(x)
  {
    var y, m := x + 7, Ones(bits - 3);
    assert Ones(bits) == 1 + 2 * (1 + 2 * (1 + 2 * m)) by {
      assert Ones(bits - 1) == 1 + 2 * Ones(bits - 2) && Ones(bits - 2) == 1 + 2 * m;
    }
    AndOnes(y / 8, bits - 3);
    AndDouble(y, 4 * m);
    AndDouble(y / 2, 2 * m);
    AndDouble(y / 4, m);
    assert y / 2 / 2 == y / 4 && y / 4 / 2 == y / 8;
  }
}
