/**
 * The database session as the turn sees it: message rows that are written
 * provisionally, then either committed together or rolled back together.
 */
module ChatStore {
  import opened Wrappers
  import opened ChatTypes

  /** The messages with `files` set on the one whose id is `id`. */
  function AttachTo(msgs: seq<StoredMessage>, id: int, files: seq<FileDescriptor>): (r: seq<StoredMessage>)
    ensures |r| == |msgs|
    decreases |msgs|
  {
    if msgs == [] then []
    else
      var last := msgs[|msgs| - 1];
      AttachTo(msgs[..|msgs| - 1], id, files) + [if last.id == id then last.(files := Some(files)) else last]
  }

  /** Attaching files to an id no message carries changes nothing. */
  lemma {:induction false} AttachToAbsent(msgs: seq<StoredMessage>, id: int, files: seq<FileDescriptor>)
    requires forall i :: 0 <= i < |msgs| ==> msgs[i].id != id
    ensures AttachTo(msgs, id, files) == msgs
    decreases |msgs|
  {
    if msgs != [] {
      AttachToAbsent(msgs[..|msgs| - 1], id, files);
    }
  }

  /**
   * Attaching files to the newest message, whose id no earlier message
   * carries, sets its files and leaves every earlier message as it was.
   */
  lemma AttachToNewest(msgs: seq<StoredMessage>, m: StoredMessage, files: seq<FileDescriptor>)
    requires forall i :: 0 <= i < |msgs| ==> msgs[i].id != m.id
    ensures AttachTo(msgs + [m], m.id, files) == msgs + [m.(files := Some(files))]
  {
    assert (msgs + [m])[..|msgs|] == msgs;
    AttachToAbsent(msgs, m.id, files);
  }

  lemma {:induction false} AttachToKeepsIds(msgs: seq<StoredMessage>, id: int, files: seq<FileDescriptor>)
    ensures forall i :: 0 <= i < |msgs| ==> AttachTo(msgs, id, files)[i].id == msgs[i].id
    decreases |msgs|
  {
    if msgs != [] {
      AttachToKeepsIds(msgs[..|msgs| - 1], id, files);
    }
  }

  predicate IdsBelow(msgs: seq<StoredMessage>, bound: int)
  {
    forall i :: 0 <= i < |msgs| ==> msgs[i].id < bound
  }

  class ChatStore {
    /** Rows that are durable. */
    var committed: seq<StoredMessage>
    /** Rows written in the current transaction and not yet committed. */
    var pending: seq<StoredMessage>
    /** The id the next inserted row receives. */
    var nextId: int

    /** Every row's id was handed out before `nextId`. */
    predicate Valid()
      reads this
    {
      IdsBelow(committed, nextId) && IdsBelow(pending, nextId)
    }

    constructor ()
      ensures Valid() && committed == [] && pending == [] && nextId == 1
    {
      committed := [];
      pending := [];
      nextId := 1;
    }

    /** Writes a row provisionally, giving it a fresh id. */
    method Insert(draft: StoredMessage) returns (m: StoredMessage)
      requires Valid()
      modifies this
      ensures Valid()
      ensures m == draft.(id := old(nextId))
      ensures forall i :: 0 <= i < |old(pending)| ==> old(pending)[i].id != m.id
      ensures pending == old(pending) + [m] && committed == old(committed) && nextId == old(nextId) + 1
    {
      m := draft.(id := nextId);
      pending := pending + [m];
      nextId := nextId + 1;
    }

    /** Sets the files of an uncommitted row. */
    method AttachFiles(id: int, files: seq<FileDescriptor>)
      requires Valid()
      modifies this
      ensures Valid()
      ensures pending == AttachTo(old(pending), id, files)
      ensures committed == old(committed) && nextId == old(nextId)
    {
      AttachToKeepsIds(pending, id, files);
      pending := AttachTo(pending, id, files);
    }

    /** Discards every uncommitted row. */
    method Rollback()
      requires Valid()
      modifies this
      ensures Valid()
      ensures pending == [] && committed == old(committed) && nextId == old(nextId)
    {
      pending := [];
    }

    /** Makes every uncommitted row durable, in the order written. */
    method Commit()
      requires Valid()
      modifies this
      ensures Valid()
      ensures pending == [] && committed == old(committed) + old(pending) && nextId == old(nextId)
    {
      committed := committed + pending;
      pending := [];
    }
  }
}
