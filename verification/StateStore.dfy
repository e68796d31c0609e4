/** Durability of the panel's JSON files (hysteria/state_store.py).

    A file is replaced by writing a sibling temporary file, renaming it over the
    target and syncing the directory. A failure can land before the rename, or
    between the rename and the directory sync; in the second case the new contents
    are visible, but a power loss may still bring an older version back. */
module StateStore {

  datatype Option<+T> = None | Some(value: T)

  /** Where one atomic write landed. */
  datatype Outcome = NotReplaced | Uncertain | Durable

  /** What the file shows now, and the older versions a power loss could restore. */
  datatype Disk<!T(==)> = Disk(visible: T, stale: set<T>) {

    /** Every version a reader may meet now or after a power loss. */
    function Versions(): (vs: set<T>)
      ensures visible in vs
    {
      stale + {visible}
    }

    function Write(data: T, o: Outcome): Disk<T> {
      match o
      case NotReplaced => this
      case Uncertain => Disk(data, Versions())
      case Durable => Disk(data, {})
    }

    /** A save that is skipped when there is nothing to write. */
    function WriteIf(data: Option<T>, o: Outcome): Disk<T> {
      if data.None? then this else Write(data.value, o)
    }

    /** Power loss: one recoverable version comes back, and it is on stable storage. */
    function PowerLoss(shown: T): Disk<T>
      requires shown in Versions()
    {
      Disk(shown, {})
    }
  }

  /** Only a write that replaced the file adds a version, and it adds only what was written. */
  lemma WriteVersions<T>(d: Disk<T>, data: T, o: Outcome)
    ensures d.Write(data, o).Versions() <= d.Versions() + {data}
    ensures o == Durable ==> d.Write(data, o).Versions() == {data}
    ensures o == NotReplaced ==> d.Write(data, o).Versions() == d.Versions()
    ensures o == Uncertain ==> d.Write(data, o).Versions() == d.Versions() + {data}
  {
  }

  /** A subset has no more elements. */
  lemma {:induction false} SubsetSize<T>(a: set<T>, b: set<T>)
    requires a <= b
    ensures |a| <= |b|
    decreases a
  {
    if a == {} {
    } else {
      var x :| x in a;
      SubsetSize(a - {x}, b - {x});
    }
  }

  /** The step of `_write_atomic` that fails, if any. */
  datatype Fault = NoFault | TempWrite | Rename | DirectorySync

  function Landing(fault: Fault): Outcome {
    match fault
    case NoFault => Durable
    case TempWrite => NotReplaced
    case Rename => NotReplaced
    case DirectorySync => Uncertain
  }

  /** One JSON file. `stale` is what the kernel has not yet promised to forget. */
  class JsonFile<T(==)> {
    var visible: T
    var temp: Option<T>
    ghost var stale: set<T>

    ghost function Contents(): Disk<T>
      reads this
    {
      Disk(visible, stale)
    }

    constructor (initial: T)
      ensures Contents() == Disk(initial, {}) && temp == None
    {
      visible, temp, stale := initial, None, {};
    }

    /** `_write_atomic`: temporary file, sync, rename, directory sync; the temporary
        file never outlives the call. */
    method WriteAtomic(data: T, fault: Fault) returns (o: Outcome)
      modifies this
      ensures o == Landing(fault)
      ensures Contents() == old(Contents()).Write(data, o)
      ensures fault == NoFault ==> Contents() == Disk(data, {})
      ensures fault == TempWrite || fault == Rename ==> Contents() == old(Contents())
      ensures fault == DirectorySync ==> Contents() == Disk(data, old(Contents()).Versions())
      ensures temp == None
    {
      temp := None;
      if fault == TempWrite {
        return NotReplaced;
      }
      temp := Some(data);
      if fault == Rename {
        temp := None;
        return NotReplaced;
      }
      ghost var before := visible;
      visible, temp := temp.value, None;
      stale := stale + {before};
      if fault == DirectorySync {
        return Uncertain;
      }
      stale := {};
      o := Durable;
    }
  }
}
