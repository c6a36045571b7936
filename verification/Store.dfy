/** Crash-safe persistence: every save goes to a temporary file that is synced and then renamed. */
module Store {
  import opened Options

  /** Keys name the target files; a temporary name is unique per attempt. */
  datatype FileName<K> = Target(key: K) | Temp(key: K, n: nat)

  /** A file holds nothing useful until it is written, and survives a crash once it is synced. */
  datatype File<V> = Blank | Written(content: V, synced: bool)

  type Files<K(==), V> = map<FileName<K>, File<V>>

  /** Load would find a document under key after a crash now. */
  predicate Readable<K(==), V>(files: Files<K, V>, key: K) {
    Target(key) in files && files[Target(key)].Written? && files[Target(key)].synced
  }

  /** The documents that would survive a crash now are exactly those of disk. */
  ghost predicate ReadsBack<K(!new), V>(files: Files<K, V>, disk: map<K, V>) {
    forall key {:trigger Readable(files, key)} ::
      && (key in disk <==> Readable(files, key))
      && (Readable(files, key) ==> key in disk && disk[key] == files[Target(key)].content)
  }

  /** The crash images of one save: the old document until the rename, the new one from then on. */
  function SaveImages<K, V>(disk: map<K, V>, key: K, v: V): seq<map<K, V>> {
    [disk, disk, disk, disk[key := v]]
  }

  /** The crash images of rewriting a file in place: for a moment it cannot be read. */
  function OverwriteImages<K, V>(disk: map<K, V>, key: K, v: V): seq<map<K, V>> {
    [disk - {key}, disk[key := v]]
  }

  class Store<K(!new, ==), V> {
    var files: Files<K, V>
    var seqNo: nat
    /** What a crash now would leave to be read. */
    ghost var disk: map<K, V>
    /** Every such disk so far, one per file system call. */
    ghost var images: seq<map<K, V>>

    ghost predicate Valid()
      reads this
    {
      ReadsBack(files, disk)
    }

    /** One save and nothing else has happened since. */
    twostate predicate Saved(key: K, v: V)
      reads this
    {
      Valid() && disk == old(disk)[key := v] && images == old(images) + SaveImages(old(disk), key, v)
    }

    /** Nothing has been written since. */
    twostate predicate Same()
      reads this
    {
      Valid() && disk == old(disk) && images == old(images)
    }

    constructor ()
      ensures Valid() && disk == map[] && images == []
    {
      files, seqNo, disk, images := map[], 0, map[], [];
    }

    /** One file system call, after which a crash leaves `now`. */
    method Update(files: Files<K, V>, ghost now: map<K, V>)
      requires ReadsBack(files, now)
      modifies this
      ensures Valid() && this.files == files && disk == now && images == old(images) + [now]
      ensures seqNo == old(seqNo)
    {
      this.files, disk, images := files, now, images + [now];
    }

    /** Save replaces the document under key atomically: a crash at any step leaves every key with a
        complete document, the old one or the new one, and no temporary file stays behind. */
    method Save(key: K, v: V)
      requires Valid()
      modifies this
      ensures Saved(key, v)
      ensures Temp(key, seqNo) !in files
      ensures seqNo == old(seqNo) + 1
    {
      seqNo := seqNo + 1;
      var tmp := Temp(key, seqNo);
      TempInvisible(files, disk, tmp, Blank);
      Update(files[tmp := Blank], disk);               // open
      TempInvisible(files, disk, tmp, Written(v, false));
      Update(files[tmp := Written(v, false)], disk);   // write
      TempInvisible(files, disk, tmp, Written(v, true));
      Update(files[tmp := Written(v, true)], disk);    // sync
      RenameReplaces(files, disk, tmp, v);
      Update((files - {tmp})[Target(key) := files[tmp]], disk[key := v]);  // rename
    }

    /** os.WriteFile: truncate, then write; the kernel keeps what was written. */
    method Overwrite(key: K, v: V)
      requires Valid()
      modifies this
      ensures Valid() && disk == old(disk)[key := v]
      ensures images == old(images) + OverwriteImages(old(disk), key, v)
    {
      TruncateHides(files, disk, key);
      Update(files[Target(key) := Blank], disk - {key});
      WriteShows(files, disk, key, v);
      assert disk[key := v] == old(disk)[key := v];
      Update(files[Target(key) := Written(v, true)], disk[key := v]);
    }

    method Load(key: K) returns (v: Option<V>)
      requires Valid()
      ensures v == if key in disk then Some(disk[key]) else None
    {
      assert Readable(files, key) <==> key in disk;
      if Target(key) in files && files[Target(key)].Written? && files[Target(key)].synced {
        v := Some(files[Target(key)].content);
      } else {
        v := None;
      }
    }

    /** The names of the documents there are. */
    method List() returns (keys: set<K>)
      requires Valid()
      ensures keys == disk.Keys
    {
      keys := set f | f in files && f.Target? && files[f].Written? && files[f].synced :: f.key;
      forall key ensures key in keys <==> key in disk {
        assert Readable(files, key) <==> key in disk;
        if Readable(files, key) { assert Target(key).key == key; }
      }
    }
  }

  lemma TempInvisible<K(!new), V>(files: Files<K, V>, disk: map<K, V>, tmp: FileName<K>, f: File<V>)
    requires ReadsBack(files, disk) && tmp.Temp?
    ensures ReadsBack(files[tmp := f], disk)
  {
    var files' := files[tmp := f];
    forall key ensures Readable(files', key) <==> Readable(files, key) {}
  }

  lemma RenameReplaces<K(!new), V>(files: Files<K, V>, disk: map<K, V>, tmp: FileName<K>, v: V)
    requires ReadsBack(files, disk) && tmp.Temp? && tmp in files && files[tmp] == Written(v, true)
    ensures ReadsBack((files - {tmp})[Target(tmp.key) := files[tmp]], disk[tmp.key := v])
  {
    var files' := (files - {tmp})[Target(tmp.key) := files[tmp]];
    forall key ensures Readable(files', key) <==> Readable(files, key) || key == tmp.key {}
  }

  lemma TruncateHides<K(!new), V>(files: Files<K, V>, disk: map<K, V>, key: K)
    requires ReadsBack(files, disk)
    ensures ReadsBack(files[Target(key) := Blank], disk - {key})
  {
    var files' := files[Target(key) := Blank];
    forall k ensures Readable(files', k) <==> Readable(files, k) && k != key {}
  }

  lemma WriteShows<K(!new), V>(files: Files<K, V>, disk: map<K, V>, key: K, v: V)
    requires ReadsBack(files, disk)
    ensures ReadsBack(files[Target(key) := Written(v, true)], disk[key := v])
  {
    var files' := files[Target(key) := Written(v, true)];
    forall k ensures Readable(files', k) <==> Readable(files, k) || k == key {}
  }
}
