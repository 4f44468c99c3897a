/** Wide strings (`dcommon::helpers::wide`): NUL-terminated buffers of UTF-16 code units,
    their length scans, and `CoTaskWString`, an owned NUL-terminated copy in memory the
    COM task allocator hands out. */
module WideStrings {
  import opened Wrappers
  import opened Ints

  /** The index of the first 0 unit of `s`, or `|s|` when there is none. */
  function FirstNul(s: seq<u16>): (n: nat)
    ensures n <= |s|
    ensures forall i | 0 <= i < n :: s[i] != 0
    ensures n < |s| ==> s[n] == 0
    ensures n == |s| <==> 0 !in s
  {
    if |s| == 0 then 0
    else if s[0] == 0 then 0
    else
      assert s == [s[0]] + s[1..];
      1 + FirstNul(s[1..])
  }

  /** The first 0 of `s` is found in any extension of `s` at the same index. */
  lemma {:induction false} FirstNulOfPrefix(s: seq<u16>, t: seq<u16>)
    requires 0 in s
    ensures FirstNul(s + t) == FirstNul(s)
  {
    var n := FirstNul(s);
    assert (s + t)[n] == 0;
    forall i | 0 <= i < n ensures (s + t)[i] != 0 {
      assert (s + t)[i] == s[i];
    }
    FirstNulUnique(s + t, n);
  }

  /** The first 0 is the only index with a 0 and no 0 before it. */
  lemma FirstNulUnique(s: seq<u16>, n: nat)
    requires n < |s| && s[n] == 0
    requires forall i | 0 <= i < n :: s[i] != 0
    ensures FirstNul(s) == n
  {
  }

  /** Cutting a sequence at its first 0 leaves a sequence with no 0. */
  lemma {:induction false} PrefixHasNoNul(s: seq<u16>)
    ensures 0 !in s[..FirstNul(s)]
    ensures FirstNul(s[..FirstNul(s)]) == FirstNul(s)
  {
    var p := s[..FirstNul(s)];
    assert forall i | 0 <= i < |p| :: p[i] == s[i];
  }

  /** `wstrnlen`: count units up to the first 0 or the end of the slice. */
  method WStrNLen(s: seq<u16>) returns (len: nat)
    ensures len == FirstNul(s)
  {
    len := 0;
    while len < |s|
      invariant 0 <= len <= |s|
      invariant forall i | 0 <= i < len :: s[i] != 0
    {
      if s[len] == 0 {
        FirstNulUnique(s, len);
        return;
      }
      len := len + 1;
    }
    assert 0 !in s;
  }

  /** `wstrlen`: walk a pointer from `mem[at]` until it reads 0. The caller guarantees a 0
      in the buffer at or after `at`; the result is the index of the first one. */
  method WStrLen(mem: array<u16>, at: nat) returns (len: nat)
    requires at <= mem.Length
    requires 0 in mem[at..]
    ensures len == FirstNul(mem[at..])
    ensures at + len < mem.Length && mem[at + len] == 0
  {
    ghost var s := mem[at..];
    ghost var n := FirstNul(s);
    len := 0;
    var p := at;
    while mem[p] != 0
      invariant p == at + len
      invariant len <= n
      invariant forall i | 0 <= i < len :: s[i] != 0
      decreases n - len
    {
      assert s[len] == mem[p];
      len := len + 1;
      p := p + 1;
    }
    assert s[len] == 0;
    FirstNulUnique(s, len);
  }

  /** `CoTaskWString`: the start of a task-allocator buffer holding a NUL-terminated copy.
      Nothing writes the buffer after `create`. */
  class CoTaskWString {
    const buf: array<u16>

    /** The buffer holds a 0, so `len` stays inside it. */
    ghost predicate Valid()
      reads this, buf
    {
      0 in buf[..]
    }

    constructor FromBuffer(b: array<u16>)
      ensures buf == b
    {
      buf := b;
    }

    /** `CoTaskWString::create`: allocate `(|data| + 1) * 2` bytes, panic on a null
        result (`allocNull`), copy `data` and write 0 at index `|data|`. */
    static method Create(data: seq<u16>, allocNull: bool) returns (r: Checked<CoTaskWString>)
      ensures r.Panics? <==> allocNull
      ensures r.Returns? ==> fresh(r.value) && fresh(r.value.buf)
      ensures r.Returns? ==> r.value.buf[..] == data + [0] && r.value.Valid()
    {
      if allocNull {
        return Panics;
      }
      var mem := new u16[|data| + 1];
      forall i | 0 <= i < |data| {
        mem[i] := data[i];
      }
      mem[|data|] := 0;
      assert mem[..] == data + [0];
      var s := new CoTaskWString.FromBuffer(mem);
      r := Returns(s);
    }

    /** `len`: `wstrlen` from the start of the buffer. */
    method Len() returns (n: nat)
      requires Valid()
      ensures n == FirstNul(buf[..]) && n < buf.Length
    {
      n := WStrLen(buf, 0);
      assert buf[0..] == buf[..];
    }

    /** `data`: the first `len` units, the string without its terminator. */
    method Data() returns (d: seq<u16>)
      requires Valid()
      ensures d == buf[..FirstNul(buf[..])]
      ensures 0 !in d
    {
      var n := Len();
      d := buf[..n];
      PrefixHasNoNul(buf[..]);
    }

    /** `clone`: `create` on `data`, a fresh buffer holding the same string. */
    method Clone(allocNull: bool) returns (r: Checked<CoTaskWString>)
      requires Valid()
      ensures r.Panics? <==> allocNull
      ensures r.Returns? ==> fresh(r.value) && fresh(r.value.buf)
      ensures r.Returns? ==> r.value.buf[..] == buf[..FirstNul(buf[..])] + [0]
    {
      var d := Data();
      r := Create(d, allocNull);
    }
  }

  /** What `len` and `data` return for a buffer `create` filled from `data`: the length of
      `data` up to its first 0, which is `|data|` exactly when `data` has no 0; and `data`
      itself when it has no 0. */
  lemma {:induction false} CreatedLenAndData(data: seq<u16>)
    ensures FirstNul(data + [0]) == FirstNul(data)
    ensures FirstNul(data + [0]) == |data| <==> 0 !in data
    ensures 0 !in data ==> (data + [0])[..FirstNul(data + [0])] == data
  {
    if 0 in data {
      FirstNulOfPrefix(data, [0]);
    } else {
      assert (data + [0])[|data|] == 0;
      forall i | 0 <= i < |data| ensures (data + [0])[i] != 0 {
        assert (data + [0])[i] == data[i];
      }
      FirstNulUnique(data + [0], |data|);
    }
  }

  /** A clone holds the same string: `data` of the copy equals `data` of the original. */
  lemma {:induction false} CloneKeepsData(b: seq<u16>)
    requires 0 in b
    ensures var d := b[..FirstNul(b)]; (d + [0])[..FirstNul(d + [0])] == d
  {
    PrefixHasNoNul(b);
    CreatedLenAndData(b[..FirstNul(b)]);
  }
}
