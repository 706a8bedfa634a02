/** atomic_write_inner: one atomic replacement as the calling thread runs it, with every way it can fail. */
module AtomicWrite {
  import opened LockProtocol

  /** Where the operating system refuses, if it does. */
  datatype Fault =
    | NoFault
    | BadTarget
    | CreateFails
    | WriteFails(chunk: nat)
    | SyncFails
    | RenameFails
    | DirectorySyncFails

  function Joined(chunks: seq<Content>): Content {
    if chunks == [] then "" else Joined(chunks[..|chunks| - 1]) + chunks[|chunks| - 1]
  }

  /** One chunk is itself, and chunks after one another are joined one after the other. */
  lemma {:induction false} JoinedInOrder(a: seq<Content>, b: seq<Content>, c: Content)
    ensures Joined([]) == "" && Joined([c]) == c
    ensures Joined(a + b) == Joined(a) + Joined(b)
    decreases |b|
  {
    assert [c][..0] == [] && "" + c == c;
    if b == [] {
      assert a + b == a && Joined(a) + "" == Joined(a);
    } else {
      var init, last := b[..|b| - 1], b[|b| - 1];
      assert (a + b)[..|a + b| - 1] == a + init && (a + b)[|a + b| - 1] == last;
      JoinedInOrder(a, init, c);
      assert Joined(a) + Joined(init) + last == Joined(a) + (Joined(init) + last);
    }
  }

  class FileSystem {
    var files: map<File, Content>

    constructor (files: map<File, Content>)
      ensures this.files == files
    {
      this.files := files;
    }

    /** Writes the chunks to a fresh temporary file and renames it over the target. On every failure
        before the rename the target is as it was; after it, the target holds the whole new content,
        even when the directory sync makes the call report an error; no temporary file is left. */
    method AtomicWriteInner(target: FileName, chunks: seq<Content>, temp: nat, fault: Fault) returns (ok: bool)
      requires Temp(temp) !in files
      modifies this
      ensures ok <==> fault.NoFault? || (fault.WriteFails? && fault.chunk >= |chunks|)
      ensures files == if ok || fault.DirectorySyncFails? then old(files)[Target(target) := Joined(chunks)] else old(files)
    {
      if fault.BadTarget? || fault.CreateFails? {
        return false;
      }
      files := files[Temp(temp) := ""];
      for i := 0 to |chunks|
        invariant files == old(files)[Temp(temp) := Joined(chunks[..i])]
        invariant fault.WriteFails? ==> fault.chunk >= i
      {
        assert chunks[..i + 1][..i] == chunks[..i];
        if fault == WriteFails(i) {
          files := files - {Temp(temp)};
          assert files == old(files);
          return false;
        }
        files := files[Temp(temp) := files[Temp(temp)] + chunks[i]];
      }
      assert chunks[..|chunks|] == chunks;
      if fault.SyncFails? || fault.RenameFails? {
        files := files - {Temp(temp)};
        assert files == old(files);
        return false;
      }
      var content := files[Temp(temp)];
      files := (files - {Temp(temp)})[Target(target) := content];
      assert files == old(files)[Target(target) := content];
      return !fault.DirectorySyncFails?;
    }
  }
}
