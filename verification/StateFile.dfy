/** How the runtime state file is replaced (runtime_state.rs, `write_json_atomically`): one
    file operation at a time, each of which may fail, with a crash possible after each. */
module StateFile {
  import opened Records
  import opened Kernel

  /** What an inode holds. Contents that were not synced may be anything after a crash. */
  datatype Content = Torn | Whole(image: Runtime)

  datatype Inode = Inode(content: Content, synced: bool)

  /** Which of the file operations fail. `written` is what a failing write leaves. */
  datatype Faults = Faults(prepare: bool, create: bool, write: bool, sync: bool, rename: bool, directory: bool)

  class StateStore {
    var inodes: map<nat, Inode>
    var entry: Option<nat>            // the visible directory entry of the state file
    var possible: set<Option<nat>>    // the entries a crash could expose

    /** Every entry a crash could expose names a synced, whole image, or nothing at all. */
    ghost predicate Valid()
      reads this
    {
      && entry in possible
      && forall e | e in possible && e.Some? ::
           e.value in inodes && inodes[e.value].synced && inodes[e.value].content.Whole?
    }

    /** The image behind a directory entry; a missing file stands for the first run. */
    function ImageAt(e: Option<nat>): Runtime
      requires Valid() && e in possible
      reads this
    {
      if e.None? then DefaultRuntime else inodes[e.value].content.image
    }

    /** The images a crash could expose now. */
    function Images(): set<Runtime>
      requires Valid()
      reads this
    {
      set e | e in possible :: ImageAt(e)
    }

    constructor ()
      ensures Valid() && Images() == {DefaultRuntime}
    {
      inodes, entry, possible := map[], None, {None};
    }

    method Create(temporary: nat)
      requires Valid() && temporary !in inodes
      modifies this
      ensures Valid() && Images() == old(Images()) && entry == old(entry) && possible == old(possible)
      ensures inodes == old(inodes)[temporary := Inode(Torn, false)]
    {
      inodes := inodes[temporary := Inode(Torn, false)];
      assert forall e | e in possible :: ImageAt(e) == old(ImageAt(e));
    }

    /** A write may stop half-way. Nothing is synced by it. */
    method Write(temporary: nat, image: Runtime, fails: bool)
      requires Valid() && temporary in inodes && Some(temporary) !in possible
      modifies this
      ensures Valid() && Images() == old(Images()) && entry == old(entry) && possible == old(possible)
      ensures inodes == old(inodes)[temporary := Inode(if fails then Torn else Whole(image), false)]
    {
      inodes := inodes[temporary := Inode(if fails then Torn else Whole(image), false)];
      assert forall e | e in possible :: ImageAt(e) == old(ImageAt(e));
    }

    method SyncFile(temporary: nat)
      requires Valid() && temporary in inodes && Some(temporary) !in possible
      modifies this
      ensures Valid() && Images() == old(Images()) && entry == old(entry) && possible == old(possible)
      ensures inodes == old(inodes)[temporary := old(inodes)[temporary].(synced := true)]
    {
      inodes := inodes[temporary := inodes[temporary].(synced := true)];
      assert forall e | e in possible :: ImageAt(e) == old(ImageAt(e));
    }

    method Remove(temporary: nat)
      requires Valid() && Some(temporary) !in possible
      modifies this
      ensures Valid() && Images() == old(Images()) && entry == old(entry) && possible == old(possible)
      ensures inodes == old(inodes) - {temporary}
    {
      inodes := inodes - {temporary};
      assert forall e | e in possible :: ImageAt(e) == old(ImageAt(e));
    }

    /** The new entry is visible at once; a crash may still show an older one. */
    method Rename(temporary: nat)
      requires Valid() && temporary in inodes && inodes[temporary].synced && inodes[temporary].content.Whole?
      modifies this
      ensures Valid() && entry == Some(temporary) && Images() == old(Images()) + {old(inodes)[temporary].content.image}
      ensures ImageAt(entry) == old(inodes)[temporary].content.image
    {
      entry := Some(temporary);
      possible := possible + {Some(temporary)};
      assert forall e | e in old(possible) :: ImageAt(e) == old(ImageAt(e));
      assert ImageAt(Some(temporary)) in Images();
    }

    method SyncDirectory()
      requires Valid()
      modifies this
      ensures Valid() && ImageAt(entry) == old(ImageAt(entry)) && Images() == {old(ImageAt(entry))}
    {
      possible := {entry};
    }

    /** `write_json_atomically`. `crashes` collects the images a crash could expose after each
        operation. Whatever fails, and wherever the agent dies, the file is an old image or
        the whole new one; and the outcome says exactly which images are still possible. */
    method WriteAtomically(image: Runtime, temporary: nat, faults: Faults)
      returns (outcome: SaveOutcome, ghost crashes: seq<set<Runtime>>)
      requires Valid() && temporary !in inodes
      modifies this
      ensures Valid() && Images() == ImagesAfter(old(Images()), image, outcome)
      ensures outcome != Failed ==> ImageAt(entry) == image
      ensures outcome == Failed ==> entry == old(entry)
      ensures forall images | images in crashes ::
                images == old(Images()) || images == old(Images()) + {image} || images == {image}
      ensures crashes != [] ==> crashes[|crashes| - 1] == Images()
      ensures outcome == Durable <==> !(faults.prepare || faults.create || faults.write || faults.sync || faults.rename || faults.directory)
    {
      crashes := [];
      if faults.prepare || faults.create {
        return Failed, [];
      }
      Create(temporary);
      crashes := crashes + [Images()];
      Write(temporary, image, faults.write);
      crashes := crashes + [Images()];
      if faults.write {
        Remove(temporary);
        return Failed, crashes + [Images()];
      }
      if faults.sync {
        Remove(temporary);
        return Failed, crashes + [Images()];
      }
      SyncFile(temporary);
      crashes := crashes + [Images()];
      if faults.rename {
        Remove(temporary);
        return Failed, crashes + [Images()];
      }
      Rename(temporary);
      crashes := crashes + [Images()];
      if faults.directory {
        return Uncertain, crashes;
      }
      SyncDirectory();
      crashes := crashes + [Images()];
      outcome := Durable;
    }
  }
}
