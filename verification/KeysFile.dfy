/** The keys file of the benchmark: written record by record by the `create` command, one file
    per partition, and read back as one concatenated file by the `requests` command. */
module KeysFile {

  type Byte = b: int | 0 <= b < 256

  const KEY_SZ: nat := 32
  const ENTRY_SZ: nat := 5
  const PARTITIONS_MAX: nat := 256

  // ----- key, partition and hash -----

  function PartitionKey(key: seq<Byte>): nat {
    if |key| > 0 then key[0] else 0
  }

  /** The four bytes after the first, read as a number in the machine's byte order. */
  function HashKey(key: seq<Byte>): nat {
    if |key| >= 5 then Decode32(key[1..5]) else 0
  }

  function Decode32(b: seq<Byte>): (n: nat)
    requires |b| == 4
    ensures n < 0x1_0000_0000
  {
    b[0] as int + 0x100 * (b[1] as int + 0x100 * (b[2] as int + 0x100 * b[3] as int))
  }

  function Encode32(n: nat): (b: seq<Byte>)
    requires n < 0x1_0000_0000
    ensures |b| == 4
  {
    [n % 0x100, n / 0x100 % 0x100, n / 0x100 / 0x100 % 0x100, n / 0x100 / 0x100 / 0x100]
  }

  lemma LowDigit(b: Byte, n: nat)
    ensures (b as int + 0x100 * n) % 0x100 == b && (b as int + 0x100 * n) / 0x100 == n
  {
  }

  lemma DecodeEncode(n: nat)
    requires n < 0x1_0000_0000
    ensures Decode32(Encode32(n)) == n
  {
  }

  /** Copying the hash back out gives the key's own bytes. */
  lemma EncodeDecode(b: seq<Byte>)
    requires |b| == 4
    ensures Encode32(Decode32(b)) == b
  {
    LowDigit(b[2], b[3]);
    LowDigit(b[1], b[2] as int + 0x100 * b[3] as int);
    LowDigit(b[0], b[1] as int + 0x100 * (b[2] as int + 0x100 * b[3] as int));
  }

  // ----- records -----

  /** What is written and read for one record. */
  datatype Entry = Entry(partition: nat, hash: nat)
  {
    predicate Valid() { partition < PARTITIONS_MAX && hash < 0x1_0000_0000 }
  }

  /** The partition and hash `db_record::update` gives a key. */
  function EntryOf(key: seq<Byte>, partitions: nat): Entry
    requires 1 <= partitions <= PARTITIONS_MAX
  {
    Entry(PartitionKey(key) % partitions, HashKey(key))
  }

  /** The value of a record: the key repeated as often as it fits, the rest left as it was. */
  method FillValue(value: array<Byte>, key: seq<Byte>)
    requires |key| == KEY_SZ
    modifies value
    ensures forall j :: 0 <= j < value.Length ==>
              value[j] == if j < value.Length / KEY_SZ * KEY_SZ then key[j % KEY_SZ] else old(value[j])
  {
    var i := 0;
    while i < value.Length / KEY_SZ
      invariant 0 <= i <= value.Length / KEY_SZ
      invariant forall j :: 0 <= j < value.Length ==>
                  value[j] == if j < i * KEY_SZ then key[j % KEY_SZ] else old(value[j])
    {
      var base := i * KEY_SZ;
      forall j | 0 <= j < KEY_SZ {
        value[base + j] := key[j];
      }
      assert forall j :: base <= j < base + KEY_SZ ==> j % KEY_SZ == j - base;
      i := i + 1;
    }
  }

  // ----- the file -----

  /** `handle_create`: the partition as one byte, then the hash. */
  function EntryBytes(e: Entry): (b: seq<Byte>)
    requires e.Valid()
    ensures |b| == ENTRY_SZ
  {
    [e.partition % 256] + Encode32(e.hash)
  }

  ghost predicate AllValid(es: seq<Entry>) { forall i :: 0 <= i < |es| ==> es[i].Valid() }

  function FileBytes(es: seq<Entry>): (b: seq<Byte>)
    requires AllValid(es)
    ensures |b| == ENTRY_SZ * |es|
  {
    if es == [] then [] else EntryBytes(es[0]) + FileBytes(es[1..])
  }

  /** The files of several partitions, one after the other, are the file of all their records. */
  lemma {:induction false} FileBytesConcat(a: seq<Entry>, b: seq<Entry>)
    requires AllValid(a) && AllValid(b)
    ensures AllValid(a + b) && FileBytes(a + b) == FileBytes(a) + FileBytes(b)
  {
    if a == [] {
      assert a + b == b;
    } else {
      FileBytesConcat(a[1..], b);
      assert (a + b)[0] == a[0] && (a + b)[1..] == a[1..] + b;
      Associate(EntryBytes(a[0]), FileBytes(a[1..]), FileBytes(b));
    }
  }

  lemma Associate(a: seq<Byte>, b: seq<Byte>, c: seq<Byte>)
    ensures (a + b) + c == a + (b + c)
  {
  }

  lemma Shift(a: seq<Byte>, b: seq<Byte>, lo: nat, hi: nat)
    requires |a| <= lo <= hi <= |a| + |b|
    ensures (a + b)[lo..hi] == b[lo - |a|..hi - |a|]
  {
  }

  /** What `get_key` computes from the mapped bytes at index `i`. */
  function EntryAt(data: seq<Byte>, i: nat): Entry
    requires ENTRY_SZ * (i + 1) <= |data|
  {
    Entry(data[i * ENTRY_SZ], Decode32(data[i * ENTRY_SZ + 1..i * ENTRY_SZ + 5]))
  }

  lemma EntryRoundTrip(e: Entry)
    requires e.Valid()
    ensures EntryAt(EntryBytes(e), 0) == e
  {
    DecodeEncode(e.hash);
    assert EntryBytes(e)[1..5] == Encode32(e.hash);
  }

  /** Round trip: reading index `i` of the written bytes gives the `i`-th pair written. */
  lemma {:induction false} ReadBack(es: seq<Entry>, i: nat)
    requires AllValid(es) && i < |es|
    ensures EntryAt(FileBytes(es), i) == es[i]
  {
    var data, rest := FileBytes(es), FileBytes(es[1..]);
    if i == 0 {
      EntryRoundTrip(es[0]);
      assert data[1..5] == EntryBytes(es[0])[1..5];
    } else {
      ReadBack(es[1..], i - 1);
      var at := i * ENTRY_SZ;
      assert at - ENTRY_SZ == (i - 1) * ENTRY_SZ;
      Shift(EntryBytes(es[0]), rest, at + 1, at + 5);
    }
  }

  // ----- the generator of known keys -----

  class KnownKeys {
    const data: seq<Byte>
    const sz: nat
    var added: seq<Entry>

    ghost predicate Valid()
      reads this
    {
      sz == |data| / ENTRY_SZ
    }

    constructor (data: seq<Byte>)
      ensures Valid() && this.data == data && added == []
    {
      this.data := data;
      sz := |data| / ENTRY_SZ;
      added := [];
    }

    method Add(k: Entry)
      requires Valid()
      modifies this
      ensures Valid() && added == old(added) + [k]
    {
      added := added + [k];
    }

    /** `get_key` for any random number: within the mapped bytes, or one of the added keys. */
    method GetKey(random: nat) returns (key: Entry)
      requires Valid() && sz + |added| > 0
      ensures var i := random % (sz + |added|);
              if i < sz then ENTRY_SZ * (i + 1) <= |data| && key == EntryAt(data, i)
              else i - sz < |added| && key == added[i - sz]
    {
      var i := random % (sz + |added|);
      if i >= sz {
        key := added[i - sz];
      } else {
        key := Entry(data[i * ENTRY_SZ], Decode32(data[i * ENTRY_SZ + 1..i * ENTRY_SZ + 5]));
      }
    }
  }

  // ----- from creation to request -----

  /** Keys of the records inserted into each partition, each where `update` sends it. */
  ghost predicate Routed(inserted: seq<seq<seq<Byte>>>) {
    && 1 <= |inserted| <= PARTITIONS_MAX
    && forall p, j :: 0 <= p < |inserted| && 0 <= j < |inserted[p]| ==>
         EntryOf(inserted[p][j], |inserted|).partition == p
  }

  function Entries(keys: seq<seq<Byte>>, partitions: nat): (es: seq<Entry>)
    requires 1 <= partitions <= PARTITIONS_MAX
    ensures AllValid(es)
  {
    seq(|keys|, j requires 0 <= j < |keys| => EntryOf(keys[j], partitions))
  }

  lemma EntriesAppend(keys: seq<seq<Byte>>, key: seq<Byte>, partitions: nat)
    requires 1 <= partitions <= PARTITIONS_MAX
    ensures FileBytes(Entries(keys + [key], partitions)) ==
            FileBytes(Entries(keys, partitions)) + EntryBytes(EntryOf(key, partitions))
  {
    var e := EntryOf(key, partitions);
    assert Entries(keys + [key], partitions) == Entries(keys, partitions) + [e];
    FileBytesConcat(Entries(keys, partitions), [e]);
    assert FileBytes([e]) == EntryBytes(e) + FileBytes([]);
  }

  lemma NoEntries(partitions: nat)
    requires 1 <= partitions <= PARTITIONS_MAX
    ensures FileBytes(Entries([], partitions)) == []
  {
  }

  /** The bytes written for a key: its first byte modulo the number of partitions, then its next
      four as they are. */
  function KeyBytes(key: seq<Byte>, partitions: nat): seq<Byte>
    requires 1 <= partitions <= PARTITIONS_MAX && |key| >= 5
  {
    [key[0] % partitions] + key[1..5]
  }

  lemma EntryIsKeyBytes(key: seq<Byte>, partitions: nat)
    requires 1 <= partitions <= PARTITIONS_MAX && |key| >= 5
    ensures EntryBytes(EntryOf(key, partitions)) == KeyBytes(key, partitions)
  {
    EncodeDecode(key[1..5]);
    assert key[0] % partitions < 256;
  }

  /** Entry `j` of a partition's file, byte by byte. */
  lemma {:induction false} FileHoldsKeys(keys: seq<seq<Byte>>, partitions: nat, j: nat)
    requires 1 <= partitions <= PARTITIONS_MAX && j < |keys| && |keys[j]| >= 5
    ensures var file := FileBytes(Entries(keys, partitions));
            ENTRY_SZ * (j + 1) <= |file| && file[ENTRY_SZ * j..ENTRY_SZ * (j + 1)] == KeyBytes(keys[j], partitions)
  {
    var es := Entries(keys, partitions);
    assert es[1..] == Entries(keys[1..], partitions);
    hide EntryBytes, KeyBytes, EntryOf;
    if j == 0 {
      EntryIsKeyBytes(keys[0], partitions);
    } else {
      FileHoldsKeys(keys[1..], partitions, j - 1);
      Shift(EntryBytes(es[0]), FileBytes(es[1..]), ENTRY_SZ * j, ENTRY_SZ * (j + 1));
    }
  }

  /** The writing side: every record goes to the partition its key selects, and that partition's
      file gets its two fields appended, in any order the strands choose. Nothing is written
      twice or left out, and a partition's file is the image of its own records. */
  method CreateAll(keys: seq<seq<Byte>>, partitions: nat) returns (inserted: seq<seq<seq<Byte>>>, files: seq<seq<Byte>>)
    requires 1 <= partitions <= PARTITIONS_MAX
    ensures |inserted| == partitions == |files| && Routed(inserted)
    ensures forall p :: 0 <= p < partitions ==> files[p] == FileBytes(Entries(inserted[p], partitions))
    ensures forall p :: 0 <= p < partitions ==> inserted[p] == Selected(keys, p, partitions)
    ensures forall p, j :: 0 <= p < partitions && 0 <= j < |inserted[p]| && |inserted[p][j]| >= 5 ==>
              && inserted[p][j][0] % partitions == p && ENTRY_SZ * (j + 1) <= |files[p]|
              && files[p][ENTRY_SZ * j..ENTRY_SZ * (j + 1)] == [p] + inserted[p][j][1..5]
  {
    hide FileBytes, Entries, Encode32;
    NoEntries(partitions);
    inserted, files := seq(partitions, i => []), seq(partitions, i => []);
    var k := 0;
    while k < |keys|
      invariant k <= |keys| && |inserted| == partitions == |files|
      invariant forall p :: 0 <= p < partitions ==> files[p] == FileBytes(Entries(inserted[p], partitions))
      invariant forall p :: 0 <= p < partitions ==> inserted[p] == Selected(keys[..k], p, partitions)
    {
      var e := EntryOf(keys[k], partitions);
      var p := e.partition;
      EntriesAppend(inserted[p], keys[k], partitions);
      assert keys[..k + 1][..k] == keys[..k];
      inserted := inserted[p := inserted[p] + [keys[k]]];
      Associate(files[p], [e.partition % 256], Encode32(e.hash));
      files := files[p := files[p] + [e.partition % 256] + Encode32(e.hash)];
      k := k + 1;
    }
    assert keys[..k] == keys;
    forall p, j | 0 <= p < |inserted| && 0 <= j < |inserted[p]| ensures EntryOf(inserted[p][j], partitions).partition == p {
      SelectedBelong(keys, p, partitions, j);
    }
    forall p, j | 0 <= p < partitions && 0 <= j < |inserted[p]| && |inserted[p][j]| >= 5
      ensures ENTRY_SZ * (j + 1) <= |files[p]|
      ensures files[p][ENTRY_SZ * j..ENTRY_SZ * (j + 1)] == KeyBytes(inserted[p][j], partitions)
    {
      FileHoldsKeys(inserted[p], partitions, j);
    }
  }

  /** The keys that select partition `p`, in order. */
  function Selected(keys: seq<seq<Byte>>, p: nat, partitions: nat): seq<seq<Byte>>
    requires 1 <= partitions <= PARTITIONS_MAX
  {
    if keys == [] then []
    else
      var key := keys[|keys| - 1];
      Selected(keys[..|keys| - 1], p, partitions) + if EntryOf(key, partitions).partition == p then [key] else []
  }

  lemma {:induction false} SelectedBelong(keys: seq<seq<Byte>>, p: nat, partitions: nat, j: nat)
    requires 1 <= partitions <= PARTITIONS_MAX
    requires j < |Selected(keys, p, partitions)|
    ensures EntryOf(Selected(keys, p, partitions)[j], partitions).partition == p
  {
    var rest := keys[..|keys| - 1];
    if j < |Selected(rest, p, partitions)| {
      SelectedBelong(rest, p, partitions, j);
    }
  }

  /** The partitions' files put together in the given order. */
  function Catenate(inserted: seq<seq<seq<Byte>>>, order: seq<nat>): seq<Byte>
    requires 1 <= |inserted| <= PARTITIONS_MAX
    requires forall k :: 0 <= k < |order| ==> order[k] < |inserted|
  {
    if order == [] then []
    else FileBytes(Entries(inserted[order[0]], |inserted|)) + Catenate(inserted, order[1..])
  }

  function AllEntries(inserted: seq<seq<seq<Byte>>>, order: seq<nat>): (es: seq<Entry>)
    requires 1 <= |inserted| <= PARTITIONS_MAX
    requires forall k :: 0 <= k < |order| ==> order[k] < |inserted|
    ensures AllValid(es)
  {
    if order == [] then []
    else Entries(inserted[order[0]], |inserted|) + AllEntries(inserted, order[1..])
  }

  lemma {:induction false} CatenateIsFile(inserted: seq<seq<seq<Byte>>>, order: seq<nat>)
    requires 1 <= |inserted| <= PARTITIONS_MAX
    requires forall k :: 0 <= k < |order| ==> order[k] < |inserted|
    ensures Catenate(inserted, order) == FileBytes(AllEntries(inserted, order))
  {
    if order != [] {
      CatenateIsFile(inserted, order[1..]);
      FileBytesConcat(Entries(inserted[order[0]], |inserted|), AllEntries(inserted, order[1..]));
    }
  }

  /** A record with the hash was inserted into the partition. */
  ghost predicate Known(inserted: seq<seq<seq<Byte>>>, e: Entry) {
    e.partition < |inserted| && exists j :: 0 <= j < |inserted[e.partition]| && HashKey(inserted[e.partition][j]) == e.hash
  }

  lemma {:induction false} EntriesKnown(inserted: seq<seq<seq<Byte>>>, order: seq<nat>, i: nat)
    requires Routed(inserted)
    requires forall k :: 0 <= k < |order| ==> order[k] < |inserted|
    requires i < |AllEntries(inserted, order)|
    ensures Known(inserted, AllEntries(inserted, order)[i])
  {
    var p := order[0];
    var n := |inserted[p]|;
    if i < n {
      assert AllEntries(inserted, order)[i] == EntryOf(inserted[p][i], |inserted|);
      assert EntryOf(inserted[p][i], |inserted|).partition == p;
    } else {
      EntriesKnown(inserted, order[1..], i - n);
    }
  }

  /** Whatever the partitions' files hold and in whatever order they are put together, a request
      drawn from the result names an existing partition and a record that was inserted there. */
  method DrawKnownKey(inserted: seq<seq<seq<Byte>>>, order: seq<nat>, random: nat) returns (key: Entry)
    requires Routed(inserted)
    requires forall k :: 0 <= k < |order| ==> order[k] < |inserted|
    requires AllEntries(inserted, order) != []
    ensures key == AllEntries(inserted, order)[random % |AllEntries(inserted, order)|]
    ensures Known(inserted, key)
    ensures exists j :: 0 <= j < |inserted[key.partition]| &&
              var k := inserted[key.partition][j];
              |k| >= 5 ==> k[0] % |inserted| == key.partition && Decode32(k[1..5]) == key.hash
  {
    ghost var es := AllEntries(inserted, order);
    CatenateIsFile(inserted, order);
    var known := new KnownKeys(Catenate(inserted, order));
    assert known.sz == |es|;
    ghost var i := random % |es|;
    key := known.GetKey(random);
    ReadBack(es, i);
    EntriesKnown(inserted, order, i);
  }
}
