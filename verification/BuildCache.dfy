/** The build cache on disk: records that name content by its hash, intact however far a change has got. */
module BuildCache {
  import opened Paths
  import opened Wrappers
  import opened Expand
  import opened CacheRecords

  /** What is on disk: the records as last committed, and every file kept beside them. */
  datatype Disk = Disk(records: map<Path, Record>, objects: map<string, Bytes>)

  /** Every record names a file that is there, and whose bytes hash to its name. */
  ghost predicate Intact(hash: Bytes -> Hash, d: Disk) {
    forall o :: o in d.records ==> ContentThere(hash, d.objects, d.records[o].hash)
  }

  ghost predicate ContentThere(hash: Bytes -> Hash, objects: map<string, Bytes>, h: Hash) {
    h in objects && hash(objects[h]) == h
  }

  /** Some record names the content `h`. */
  predicate Referenced(records: map<Path, Record>, h: string) {
    exists o :: o in records && records[o].hash == h
  }

  predicate IsHash(h: string) {
    |h| == 32 && forall i :: 0 <= i < |h| ==> '0' <= h[i] <= '9' || 'a' <= h[i] <= 'f'
  }

  function Digits(n: nat): string {
    if n < 10 then [('0' as int + n) as char] else Digits(n / 10) + [('0' as int + n % 10) as char]
  }

  /** What content is called while it is being written. */
  function ScratchName(h: Hash, n: nat): string {
    h + "." + Digits(n) + ".tmp"
  }

  lemma ScratchIsNoHash(h: Hash, n: nat)
    requires IsHash(h)
    ensures !IsHash(ScratchName(h, n))
  {
    assert ScratchName(h, n)[32] == '.';
    assert |ScratchName(h, n)| > 32;
  }

  /** Of several stamps of one input, the first. */
  function OncePerPath(inputs: seq<Input>): seq<Input> {
    if inputs == [] then []
    else
      var before, last := OncePerPath(inputs[..|inputs| - 1]), inputs[|inputs| - 1];
      if exists i :: 0 <= i < |before| && before[i].path == last.path then before else before + [last]
  }

  lemma {:induction false} OncePerPathKeeps(inputs: seq<Input>)
    ensures forall input :: input in OncePerPath(inputs) ==> input in inputs
    ensures forall i :: 0 <= i < |inputs| ==> exists j :: 0 <= j < |OncePerPath(inputs)| && OncePerPath(inputs)[j].path == inputs[i].path
    ensures forall i, j :: 0 <= i < j < |OncePerPath(inputs)| ==> OncePerPath(inputs)[i].path != OncePerPath(inputs)[j].path
  {
    if inputs != [] {
      var rest, last := inputs[..|inputs| - 1], inputs[|inputs| - 1];
      var before, all := OncePerPath(rest), OncePerPath(inputs);
      OncePerPathKeeps(rest);
      forall i | 0 <= i < |inputs| ensures exists j :: 0 <= j < |all| && all[j].path == inputs[i].path {
        if i < |rest| {
          assert inputs[i] == rest[i];
          var j :| 0 <= j < |before| && before[j].path == rest[i].path;
          assert all[j] == before[j];
        } else if all != before {
          assert all[|all| - 1] == last;
        }
      }
    }
  }

  /** And of each it is the first that is kept. */
  lemma {:induction false} OncePerPathIsFirst(inputs: seq<Input>, input: Input)
    requires input in OncePerPath(inputs)
    ensures exists i :: IsFirst(inputs, i, input)
  {
    var rest, last := inputs[..|inputs| - 1], inputs[|inputs| - 1];
    var before := OncePerPath(rest);
    if input in before {
      OncePerPathIsFirst(rest, input);
      var i :| IsFirst(rest, i, input);
      assert IsFirst(inputs, i, input);
    } else {
      OncePerPathKeeps(rest);
      forall k | 0 <= k < |inputs| - 1 ensures inputs[k].path != last.path {
        assert inputs[k] == rest[k];
        var j :| 0 <= j < |before| && before[j].path == rest[k].path;
      }
      assert IsFirst(inputs, |inputs| - 1, input);
    }
  }

  predicate IsFirst(inputs: seq<Input>, i: int, input: Input) {
    0 <= i < |inputs| && inputs[i] == input && forall k :: 0 <= k < i ==> inputs[k].path != input.path
  }

  /** Which steps of a store fail; `partial` is what a write has got to on the way. */
  datatype StoreFate = StoreFate(partial: Bytes, writes: bool, renames: bool, commits: bool, removes: bool)

  predicate Succeeds(fate: StoreFate) { fate.writes && fate.renames && fate.commits }

  /** The records a store leaves: with the new one if every step of it succeeded, and as they were if one failed. */
  function AfterStore(records: map<Path, Record>, record: Record, fate: StoreFate): map<Path, Record> {
    if Succeeds(fate) then records[record.command.output := record] else records
  }

  class BuildCache {
    const hash: Bytes -> Hash
    var records: map<Path, Record>
    var objects: map<string, Bytes>
    var nextScratch: nat

    // Every state the disk has been in: what a crash could have left.
    ghost var history: seq<Disk>

    ghost predicate Valid()
      reads this
    {
      && (forall bytes :: IsHash(hash(bytes)))
      && history != [] && history[|history| - 1] == Disk(records, objects)
      && forall i :: 0 <= i < |history| ==> Intact(hash, history[i])
    }

    /** Opens a cache as some crash may have left it. */
    constructor (hash: Bytes -> Hash, found: Disk)
      requires (forall bytes :: IsHash(hash(bytes))) && Intact(hash, found)
      ensures Valid() && this.hash == hash && Disk(records, objects) == found && history == [found]
    {
      this.hash := hash;
      records, objects, nextScratch, history := found.records, found.objects, 0, [found];
    }

    // ---- One step on disk each -------------------------------------------------------------------

    method Put(name: string, bytes: Bytes)
      requires Valid() && (IsHash(name) ==> hash(bytes) == name)
      modifies `objects, `history
      ensures Valid() && objects == old(objects)[name := bytes] && old(history) < history
    {
      NoRecordNames(hash, Disk(records, objects), name);
      objects := objects[name := bytes];
      history := history + [Disk(records, objects)];
    }

    method Rename(from: string, h: Hash)
      requires Valid() && from in objects && !IsHash(from) && hash(objects[from]) == h
      modifies `objects, `history
      ensures Valid() && objects == old(objects)[h := old(objects)[from]] - {from} && old(history) < history
    {
      NoRecordNames(hash, Disk(records, objects), from);
      objects := objects[h := objects[from]] - {from};
      history := history + [Disk(records, objects)];
    }

    method RemoveFile(name: string)
      requires Valid() && !Referenced(records, name)
      modifies `objects, `history
      ensures Valid() && objects == old(objects) - {name} && old(history) < history
    {
      objects := objects - {name};
      history := history + [Disk(records, objects)];
    }

    method Commit(after: map<Path, Record>)
      requires Valid() && Intact(hash, Disk(after, objects))
      modifies `records, `history
      ensures Valid() && records == after && old(history) < history
    {
      records := after;
      history := history + [Disk(records, objects)];
    }

    // ---- The cache's operations ------------------------------------------------------------------

    /** What is filed under `h`, if it is there and hashes to that. */
    function Read(h: string): (bytes: Option<Bytes>)
      reads this
      ensures bytes.Some? ==> hash(bytes.value) == h
    {
      if IsHash(h) && h in objects && hash(objects[h]) == h then Some(objects[h]) else None
    }

    /** Deletes content that no record names any more; `removes` is whether the disk lets it. */
    method DropIfUnreferenced(h: Hash, removes: bool)
      requires Valid()
      modifies `objects, `history
      ensures Valid() && old(history) <= history
      ensures objects == if !Referenced(records, h) && removes then old(objects) - {h} else old(objects)
    {
      if !Referenced(records, h) && removes {
        RemoveFile(h);
      }
    }

    /** Records a build of an output as `bytes`; if it cannot, the records stay as they were. */
    method Store(command: Command, bytes: Bytes, mtime: int, inputs: seq<Input>, fate: StoreFate) returns (stored: bool)
      requires Valid()
      modifies this
      ensures Valid() && old(history) <= history
      ensures stored <==> Succeeds(fate)
      ensures records == AfterStore(old(records), Record(command, hash(bytes), mtime, OncePerPath(inputs)), fate)
      ensures stored ==> Read(hash(bytes)) == Some(bytes)
      ensures forall h :: h in old(objects) && Referenced(records, h) && h != hash(bytes) ==> h in objects && objects[h] == old(objects)[h]
      ensures forall name :: name in objects && name !in old(objects) ==>
        name == hash(bytes) || (!fate.removes && !stored && name == ScratchName(hash(bytes), nextScratch))
      ensures stored && fate.removes && command.output in old(records) && !Referenced(records, old(records)[command.output].hash) ==>
        old(records)[command.output].hash !in objects
    {
      var h := hash(bytes);
      nextScratch := nextScratch + 1;
      var scratch := ScratchName(h, nextScratch);
      ScratchIsNoHash(h, nextScratch);
      hide Referenced, Intact, IsHash, ScratchName, OncePerPath;
      stored := WriteObject(scratch, bytes, fate);
      if stored {
        stored := RecordContent(command.output, Record(command, h, mtime, OncePerPath(inputs)), fate);
      }
    }

    /** Makes `record` that of `output`, its content being in place, and drops what content that leaves unnamed. */
    method RecordContent(output: Path, record: Record, fate: StoreFate) returns (stored: bool)
      requires Valid() && ContentThere(hash, objects, record.hash)
      modifies `records, `objects, `history
      ensures Valid() && old(history) <= history && stored == fate.commits
      ensures records == if stored then old(records)[output := record] else old(records)
      ensures stored ==> Referenced(records, record.hash)
      ensures forall h :: h in objects ==> h in old(objects) && objects[h] == old(objects)[h]
      ensures forall h :: h in old(objects) && Referenced(records, h) ==> h in objects
      ensures stored && fate.removes && output in old(records) && !Referenced(records, old(records)[output].hash) ==>
        old(records)[output].hash !in objects
    {
      hide Referenced, Intact, IsHash;
      var previous := if output in records then Some(records[output].hash) else None;
      if !fate.commits {
        DropIfUnreferenced(record.hash, fate.removes);
        return false;
      }
      CommitsIntact(hash, Disk(records, objects), output, record);
      Commit(records[output := record]);
      StillNamed(records, output);
      if previous.Some? && previous.value != record.hash {
        DropIfUnreferenced(previous.value, fate.removes);
      }
      return true;
    }

    /** No file named by a hash is ever half there: it gets its name last. */
    method WriteObject(scratch: string, bytes: Bytes, fate: StoreFate) returns (written: bool)
      requires Valid() && !IsHash(scratch) && IsHash(hash(bytes))
      modifies `objects, `history
      ensures Valid() && old(history) <= history && written == (fate.writes && fate.renames)
      ensures written ==> objects == old(objects)[hash(bytes) := bytes] - {scratch}
      ensures !written ==> objects.Keys <= old(objects).Keys + {scratch} && (fate.removes ==> scratch !in objects)
      ensures forall name :: name in old(objects) && name != scratch && name != hash(bytes) ==> name in objects && objects[name] == old(objects)[name]
      ensures !written ==> forall name :: name in old(objects) && name != scratch ==> name in objects && objects[name] == old(objects)[name]
    {
      hide Intact, IsHash;
      written := fate.writes && fate.renames;
      Put(scratch, fate.partial);
      if fate.writes {
        Put(scratch, bytes);
      }
      if written {
        Rename(scratch, hash(bytes));
      } else if fate.removes {
        NoRecordNames(hash, Disk(records, objects), scratch);
        RemoveFile(scratch);
      }
    }

    /** Drops the records of `outputs`, and then the content only they named, as far as the disk lets it. */
    method Forget(outputs: seq<Path>, commits: bool, stuck: set<Hash>) returns (forgotten: bool)
      requires Valid()
      modifies this
      ensures Valid() && old(history) <= history && forgotten == (commits || outputs == [])
      ensures records == if forgotten then old(records) - (set o | o in outputs) else old(records)
      ensures forall h :: h in objects ==> h in old(objects) && objects[h] == old(objects)[h]
      ensures forall h :: h in old(objects) && h !in objects ==> forgotten && Referenced(old(records), h) && !Referenced(records, h)
      ensures forgotten ==> forall o ::
        o in outputs && o in old(records) && !Referenced(records, old(records)[o].hash) && old(records)[o].hash !in stuck ==>
          old(records)[o].hash !in objects
    {
      if outputs == [] {
        assert records - (set o | o in outputs) == records;
        return true;
      }
      if !commits {
        return false;
      }
      var after, dropped := FindForgotten(outputs);
      hide Referenced;
      DropsIntact(hash, Disk(records, objects), after);
      Commit(after);
      DropAll(dropped, stuck);
      return true;
    }

    /** The records but those of `outputs`, and the content those named. */
    method FindForgotten(outputs: seq<Path>) returns (after: map<Path, Record>, dropped: set<Hash>)
      ensures after == records - (set o | o in outputs)
      ensures forall h :: h in dropped <==> exists o :: o in outputs && o in records && records[o].hash == h
    {
      after, dropped := records, {};
      var i := 0;
      while i < |outputs|
        invariant i <= |outputs| && after == records - (set o | o in outputs[..i])
        invariant forall h :: h in dropped <==> exists o :: o in outputs[..i] && o in records && records[o].hash == h
      {
        assert outputs[..i + 1] == outputs[..i] + [outputs[i]];
        if outputs[i] in after {
          dropped := dropped + {after[outputs[i]].hash};
          after := after - {outputs[i]};
        }
        i := i + 1;
      }
      assert outputs[..i] == outputs;
    }

    method DropAll(dropped: set<Hash>, stuck: set<Hash>)
      requires Valid()
      modifies `objects, `history
      ensures Valid() && old(history) <= history
      ensures forall h :: h in objects <==> h in old(objects) && !(h in dropped && h !in stuck && !Referenced(records, h))
      ensures forall h :: h in objects ==> objects[h] == old(objects)[h]
    {
      var rest := dropped;
      while rest != {}
        invariant rest <= dropped && Valid() && old(history) <= history
        invariant forall h :: h in objects <==> h in old(objects) && !(h in dropped - rest && h !in stuck && !Referenced(records, h))
        invariant forall h :: h in objects ==> objects[h] == old(objects)[h]
        decreases rest
      {
        var h :| h in rest;
        rest := rest - {h};
        DropIfUnreferenced(h, h !in stuck);
      }
    }

    /** What records name is kept, and of the rest whatever the disk will not delete. */
    method CollectGarbage(stuck: set<string>)
      requires Valid()
      modifies `objects, `history
      ensures Valid() && old(history) <= history
      ensures forall name :: name in objects <==> name in old(objects) && (Referenced(records, name) || name in stuck)
      ensures forall name :: name in objects ==> objects[name] == old(objects)[name]
    {
      DropAll(objects.Keys, stuck);
    }
  }

  /** No record names what is not a hash. */
  lemma NoRecordNames(hash: Bytes -> Hash, d: Disk, name: string)
    requires Intact(hash, d) && forall bytes :: IsHash(hash(bytes))
    ensures !IsHash(name) ==> !Referenced(d.records, name)
  {
    if Referenced(d.records, name) {
      var o :| o in d.records && d.records[o].hash == name;
      assert ContentThere(hash, d.objects, name);
      assert IsHash(hash(d.objects[name]));
    }
  }

  lemma CommitsIntact(hash: Bytes -> Hash, d: Disk, output: Path, record: Record)
    requires Intact(hash, d) && ContentThere(hash, d.objects, record.hash)
    ensures Intact(hash, Disk(d.records[output := record], d.objects))
  {
  }

  lemma DropsIntact(hash: Bytes -> Hash, d: Disk, after: map<Path, Record>)
    requires Intact(hash, d) && forall o :: o in after ==> o in d.records && after[o] == d.records[o]
    ensures Intact(hash, Disk(after, d.objects))
  {
  }

  lemma StillNamed(records: map<Path, Record>, output: Path)
    requires output in records
    ensures Referenced(records, records[output].hash)
  {
  }

  /** A store of which every step succeeds leaves the output recorded as it was built, and every other as it was. */
  lemma StoredIsRecorded(records: map<Path, Record>, record: Record, fate: StoreFate, o: Path)
    requires fate.writes && fate.renames && fate.commits
    ensures var after := AfterStore(records, record, fate);
      && (o == record.command.output ==> o in after && after[o] == record)
      && (o != record.command.output ==> (o in after <==> o in records) && (o in records ==> after[o] == records[o]))
  {
  }

  /** A store that fails leaves its output unrecorded, as its declaration says it does, just if it was unrecorded before. */
  lemma FailedStoreUnrecordsIff(records: map<Path, Record>, record: Record, fate: StoreFate)
    requires !Succeeds(fate)
    ensures record.command.output !in AfterStore(records, record, fate) <==> record.command.output !in records
    ensures AfterStore(records, record, fate) == records
  {
  }

  /** For instance, a second build of an output, where the disk lets no more be written. */
  lemma FailedStoreMayLeaveARecord(first: Record, second: Record, fate: StoreFate)
    requires first.command.output == second.command.output && !fate.writes
    ensures var output := second.command.output;
      var after := AfterStore(map[output := first], second, fate);
      output in after && after[output] == first
  {
  }

  /** Whatever state a crash leaves the disk in, all that its records name can be read, and is what it was named for. */
  lemma CrashLeavesRecordsReadable(cache: BuildCache, i: nat, o: Path, reopened: BuildCache)
    requires cache.Valid() && i < |cache.history| && o in cache.history[i].records
    requires reopened.hash == cache.hash && Disk(reopened.records, reopened.objects) == cache.history[i]
    ensures var bytes := reopened.Read(cache.history[i].records[o].hash);
      bytes.Some? && cache.hash(bytes.value) == cache.history[i].records[o].hash
  {
    var d := cache.history[i];
    assert Intact(cache.hash, d);
    assert ContentThere(cache.hash, d.objects, d.records[o].hash);
    assert IsHash(cache.hash(d.objects[d.records[o].hash]));
  }

  /** A garbage collection that nothing stopped leaves exactly the files that records name. */
  lemma CollectedIsNamed(records: map<Path, Record>, before: map<string, Bytes>, after: map<string, Bytes>, hash: Bytes -> Hash)
    requires Intact(hash, Disk(records, after))
    requires forall name :: name in after <==> name in before && Referenced(records, name)
    ensures forall name :: name in after <==> Referenced(records, name)
  {
    forall name | Referenced(records, name) ensures name in after {
      var o :| o in records && records[o].hash == name;
      assert ContentThere(hash, after, name);
    }
  }
}
