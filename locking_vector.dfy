/**
 * The batching buffer between event producers and storage: elements are
 * pushed at the back and taken out all at once, optionally only once a
 * threshold is reached. The mutex is not modelled; the locking operations
 * run their unlocked counterparts.
 */
module LockingVectors {
  import opened Wrappers

  class LockingVector<T> {
    var inner: seq<T>

    constructor()
      ensures inner == []
    {
      inner := [];
    }

    /** Starts with exactly the given elements. */
    constructor FromVector(elements: seq<T>)
      ensures inner == elements
    {
      inner := elements;
    }

    method UnsafePushBack(value: T)
      modifies this
      ensures inner == old(inner) + [value]
      ensures |inner| == |old(inner)| + 1 && inner[..|old(inner)|] == old(inner)
    {
      inner := inner + [value];
    }

    method PushBack(value: T)
      modifies this
      ensures inner == old(inner) + [value]
    {
      UnsafePushBack(value);
    }

    /**
     * Moves every element out, in insertion order, and leaves the buffer
     * empty. The result is present even when the buffer was empty.
     */
    method UnsafeIntoInner() returns (out: Option<seq<T>>)
      modifies this
      ensures out == Some(old(inner))
      ensures inner == []
    {
      out := Some(inner);
      inner := [];
    }

    method IntoInner() returns (out: Option<seq<T>>)
      modifies this
      ensures out == Some(old(inner))
      ensures inner == []
    {
      out := UnsafeIntoInner();
    }

    /**
     * Moves everything out once at least `size` elements are buffered;
     * below the threshold nothing happens. Either way nothing is lost: what
     * is returned followed by what remains is what was buffered.
     */
    method UnsafeIntoInnerAt(size: nat) returns (out: Option<seq<T>>)
      modifies this
      ensures out.Some? <==> |old(inner)| >= size
      ensures out.Some? ==> out.value == old(inner) && inner == []
      ensures out.None? ==> inner == old(inner)
      ensures out.GetOr([]) + inner == old(inner)
    {
      if |inner| >= size {
        out := UnsafeIntoInner();
      } else {
        out := None;
      }
    }

    method IntoInnerAt(size: nat) returns (out: Option<seq<T>>)
      modifies this
      ensures out.Some? <==> |old(inner)| >= size
      ensures out.Some? ==> out.value == old(inner) && inner == []
      ensures out.None? ==> inner == old(inner)
      ensures out.GetOr([]) + inner == old(inner)
    {
      out := UnsafeIntoInnerAt(size);
    }
  }
}
