/** The names of the address queues and the keys of the records (src/keys.rs). */
module Keys {
  import opened Records
  import opened Transaction

  // ------------------------------------------------------------------ queue names

  type Byte = b: int | 0 <= b < 256

  /** The bytes an escaped name spells as themselves: `[A-Za-z0-9.-]`. */
  predicate IsPlain(b: Byte) {
    48 <= b <= 57 || 65 <= b <= 90 || 97 <= b <= 122 || b == 46 || b == 45
  }

  function HexDigit(d: int): char
    requires 0 <= d < 16
  {
    "0123456789ABCDEF"[d]
  }

  function EscapedByte(b: Byte): string {
    if IsPlain(b) then [b as char] else ['_', HexDigit(b / 16), HexDigit(b % 16)]
  }

  function Escaped(address: seq<Byte>): string {
    if address == [] then "" else EscapedByte(address[0]) + Escaped(address[1..])
  }

  const ESCAPED_PREFIX: string := "resonate.a."
  const HASHED_PREFIX: string := "resonate.h."
  const TIMER_QUEUE: string := "resonate.timers"

  lemma {:induction false} EscapedAppend(a: seq<Byte>, b: Byte)
    ensures Escaped(a + [b]) == Escaped(a) + EscapedByte(b)
  {
    if a == [] {
      assert a + [b] == [b];
      assert Escaped([b][1..]) == "";
    } else {
      assert (a + [b])[1..] == a[1..] + [b];
      EscapedAppend(a[1..], b);
    }
  }

  /** The queue of the jobs for `address`. `maxLen` is the limit on queue names and
      `digest` the lower-case hexadecimal SHA-256 digest of the address. */
  method AddressQueue(address: seq<Byte>, maxLen: nat, digest: string) returns (name: string)
    ensures name == if |ESCAPED_PREFIX + Escaped(address)| <= maxLen then ESCAPED_PREFIX + Escaped(address)
                    else HASHED_PREFIX + digest
  {
    name := ESCAPED_PREFIX;
    for i := 0 to |address|
      invariant name == ESCAPED_PREFIX + Escaped(address[..i])
    {
      var b := address[i];
      EscapedAppend(address[..i], b);
      assert address[..i + 1] == address[..i] + [b];
      if IsPlain(b) {
        name := name + [b as char];
      } else {
        name := name + ['_', HexDigit(b / 16), HexDigit(b % 16)];
      }
    }
    assert address[..|address|] == address;
    if |name| > maxLen {
      name := HASHED_PREFIX + digest;
    }
  }

  function HexValue(c: char): Option<int> {
    if '0' <= c <= '9' then Some(c as int - 48)
    else if 'A' <= c <= 'F' then Some(c as int - 55)
    else None
  }

  /** The address an escaped name spells, if it spells one. */
  function Unescaped(name: string): Option<seq<Byte>>
    decreases |name|
  {
    if name == "" then Some([])
    else if name[0] == '_' then
      if |name| < 3 || HexValue(name[1]).None? || HexValue(name[2]).None? then None
      else
        var b: int := 16 * HexValue(name[1]).value + HexValue(name[2]).value;
        var rest := Unescaped(name[3..]);
        if rest.None? then None else Some([b as Byte] + rest.value)
    else if name[0] as int < 256 && IsPlain(name[0] as int) then
      var rest := Unescaped(name[1..]);
      if rest.None? then None else Some([name[0] as int as Byte] + rest.value)
    else None
  }

  lemma HexRoundTrip(d: int)
    requires 0 <= d < 16
    ensures HexValue(HexDigit(d)) == Some(d)
  {
  }

  /** Escaping can be undone. */
  lemma {:induction false} EscapingCanBeUndone(address: seq<Byte>)
    ensures Unescaped(Escaped(address)) == Some(address)
  {
    if address != [] {
      var b, rest := address[0], Escaped(address[1..]);
      EscapingCanBeUndone(address[1..]);
      var name := EscapedByte(b) + rest;
      if IsPlain(b) {
        assert name[1..] == rest && name[0] as int == b;
      } else {
        HexRoundTrip(b / 16);
        HexRoundTrip(b % 16);
        assert name[3..] == rest && name[0] == '_';
      }
      assert [b] + address[1..] == address;
    }
  }

  /** Distinct addresses name distinct queues, none of them a hashed name or the
      timer queue. */
  lemma EscapedNamesAreDistinct(a: seq<Byte>, b: seq<Byte>, digest: string)
    ensures ESCAPED_PREFIX + Escaped(a) == ESCAPED_PREFIX + Escaped(b) <==> a == b
    ensures ESCAPED_PREFIX + Escaped(a) != HASHED_PREFIX + digest
    ensures ESCAPED_PREFIX + Escaped(a) != TIMER_QUEUE && HASHED_PREFIX + digest != TIMER_QUEUE
  {
    EscapingCanBeUndone(a);
    EscapingCanBeUndone(b);
    if ESCAPED_PREFIX + Escaped(a) == ESCAPED_PREFIX + Escaped(b) {
      assert Escaped(a) == (ESCAPED_PREFIX + Escaped(a))[|ESCAPED_PREFIX|..];
      assert Escaped(b) == (ESCAPED_PREFIX + Escaped(b))[|ESCAPED_PREFIX|..];
    }
    assert (ESCAPED_PREFIX + Escaped(a))[9] == 'a' && (HASHED_PREFIX + digest)[9] == 'h' && TIMER_QUEUE[9] == 't';
  }

  lemma HexIsPlain(d: int)
    requires 0 <= d < 16
    ensures HexDigit(d) as int < 256 && IsPlain(HexDigit(d) as int)
  {
  }

  /** Every character of an escaped name is one a queue name may have. */
  lemma {:induction false} EscapedNamesArePlain(address: seq<Byte>)
    ensures forall c :: c in Escaped(address) ==> c == '_' || ((c as int) < 256 && IsPlain(c as int))
    ensures |address| <= |Escaped(address)| <= 3 * |address|
  {
    if address != [] {
      var b, rest := address[0], Escaped(address[1..]);
      EscapedNamesArePlain(address[1..]);
      assert forall c :: c in EscapedByte(b) + rest ==> c in EscapedByte(b) || c in rest;
      HexIsPlain(b / 16);
      HexIsPlain(b % 16);
    }
  }

  // ------------------------------------------------------------------------ keys

  const PROMISE_PREFIX: string := "resonate/p/"
  const TASK_PREFIX: string := "resonate/t/"
  const SCHEDULE_PREFIX: string := "resonate/s/"
  const BRANCH_PREFIX: string := "resonate/b/"

  function PromiseKey(id: Id): string { PROMISE_PREFIX + id }
  function TaskKey(id: Id): string { TASK_PREFIX + id }
  function ScheduleKey(id: Id): string { SCHEDULE_PREFIX + id }

  /** The stored key of an index entry. */
  function IndexKey(branch: string, id: Id): string { BRANCH_PREFIX + BranchKey(branch, id) }

  function BranchPrefix(branch: string): string { BRANCH_PREFIX + branch + ['\0'] }

  /** The promise id of a branch index key with prefix `prefix`. */
  function BranchEntryId(prefix: string, key: string): Option<Id> {
    if prefix <= key then Some(key[|prefix|..]) else None
  }

  /** The keys of promises, tasks, schedules and index entries never meet, so the
      records can be kept in maps of their own. */
  lemma KeysAreDisjoint(a: Id, b: Id, branch: string)
    ensures PromiseKey(a) == PromiseKey(b) <==> a == b
    ensures TaskKey(a) == TaskKey(b) <==> a == b
    ensures ScheduleKey(a) == ScheduleKey(b) <==> a == b
    ensures PromiseKey(a) != TaskKey(b) && PromiseKey(a) != ScheduleKey(b) && TaskKey(a) != ScheduleKey(b)
    ensures IndexKey(branch, a) != PromiseKey(b) && IndexKey(branch, a) != TaskKey(b)
    ensures IndexKey(branch, a) != ScheduleKey(b)
  {
    hide BranchKey;
    assert PromiseKey(a)[9] == 'p' && PromiseKey(b)[9] == 'p' && TaskKey(b)[9] == 't' && TaskKey(a)[9] == 't';
    assert ScheduleKey(b)[9] == 's' && IndexKey(branch, a)[9] == 'b';
    assert PromiseKey(a)[11..] == a && PromiseKey(b)[11..] == b;
    assert TaskKey(a)[11..] == a && TaskKey(b)[11..] == b;
    assert ScheduleKey(a)[11..] == a && ScheduleKey(b)[11..] == b;
  }

  /** An index key under a branch spells its id. */
  lemma EntryRoundTrip(branch: string, id: Id)
    ensures BranchEntryId(BranchPrefix(branch), IndexKey(branch, id)) == Some(id)
  {
    var key, prefix := IndexKey(branch, id), BranchPrefix(branch);
    assert key == prefix + id;
    assert key[|prefix|..] == id;
  }

  /** An entry of branch `other` is listed under a null-free branch exactly when it
      is the same branch, or its branch starts with that branch and a null. */
  lemma EntryOfBranch(branch: string, other: string, id: Id)
    requires '\0' !in branch
    ensures BranchKey(branch, "") <= BranchKey(other, id) <==> branch == other || branch + ['\0'] <= other
  {
    var prefix, key := BranchKey(branch, ""), BranchKey(other, id);
    assert prefix == branch + ['\0'] && |prefix| == |branch| + 1;
    assert key[|other|] == '\0';
    assert prefix <= key ==> forall k :: 0 <= k < |branch| ==> branch[k] == key[k];
    assert prefix <= key && |branch| == |other| ==> other == key[..|branch|] == prefix[..|branch|];
    assert prefix <= key && |branch| < |other| ==> other[..|prefix|] == key[..|prefix|];
    assert branch == other ==> key == prefix + id;
    assert prefix <= other ==> prefix <= key;
  }

  /** Null-free branches share no entry, and the entries of one differ by id. */
  lemma EntriesAreDistinct(branch: string, other: string, id: Id, otherId: Id)
    requires '\0' !in branch && '\0' !in other
    ensures BranchKey(branch, id) == BranchKey(other, otherId) <==> branch == other && id == otherId
  {
    if BranchKey(branch, id) == BranchKey(other, otherId) {
      var prefix := BranchKey(branch, "");
      assert prefix <= BranchKey(branch, id) by { EntryOfBranch(branch, branch, id); }
      EntryOfBranch(branch, other, otherId);
      assert !(branch + ['\0'] <= other) by { NullFreeBranch(branch, other); }
      assert BranchKey(branch, id)[|branch| + 1..] == id;
      assert BranchKey(other, otherId)[|other| + 1..] == otherId;
    }
  }

  lemma NullFreeBranch(branch: string, other: string)
    requires '\0' !in other
    ensures !(branch + ['\0'] <= other)
  {
    var prefix := branch + ['\0'];
    assert prefix[|branch|] == '\0';
    assert |branch| < |other| ==> other[|branch|] != '\0';
  }
}
