/**
 * tdogl.Shader (01_project_skeleton/source/Shader.cs): a compiled GL shader
 * handle with a reference count. The values the GL calls return are
 * parameters; the calls to glDeleteShader are recorded in `deleted`.
 */
module TdoglShader {
  import opened Wrappers

  /** C#'s `uint`. */
  newtype uint32 = x: int | 0 <= x < 0x1_0000_0000

  const UInt32Max: uint32 := 0xFFFF_FFFF

  /** The handle value meaning "no shader". */
  const NoShader: uint32 := 0

  /** `x += 1` on a `uint` in C#'s default unchecked context: wraps from the largest value to 0. */
  function WrappingIncrement(x: uint32): (r: uint32)
    ensures x < UInt32Max ==> r == x + 1
    ensures x == UInt32Max ==> r == 0
  {
    ((x as int + 1) % 0x1_0000_0000) as uint32
  }

  /** `x -= 1` on a `uint` in C#'s default unchecked context: wraps from 0 to the largest value. */
  function WrappingDecrement(x: uint32): (r: uint32)
    ensures 0 < x ==> r == x - 1
    ensures x == 0 ==> r == UInt32Max
  {
    ((x as int - 1) % 0x1_0000_0000) as uint32
  }

  /** The two wrapping steps undo each other, on every value. */
  lemma WrappingInverse(x: uint32)
    ensures WrappingDecrement(WrappingIncrement(x)) == x
    ensures WrappingIncrement(WrappingDecrement(x)) == x
  {
  }

  /** The two fields of a Shader. */
  datatype ShaderState = ShaderState(glObject: uint32, refCount: uint32)

  /** The state after Retain: the same handle, and a count that a wrapping decrement takes back to the old one. */
  function Retained(s: ShaderState): (r: ShaderState)
    ensures r.glObject == s.glObject
    ensures WrappingDecrement(r.refCount) == s.refCount
  {
    WrappingInverse(s.refCount);
    ShaderState(s.glObject, WrappingIncrement(s.refCount))
  }

  /**
   * The state after Release: a count that a wrapping increment takes back to
   * the old one, and the handle dropped exactly when the old count was 1.
   */
  function Released(s: ShaderState): (r: ShaderState)
    ensures WrappingIncrement(r.refCount) == s.refCount
    ensures s.refCount == 1 ==> r.glObject == NoShader
    ensures s.refCount != 1 ==> r.glObject == s.glObject
  {
    WrappingInverse(s.refCount);
    var count := WrappingDecrement(s.refCount);
    ShaderState(if count == 0 then NoShader else s.glObject, count)
  }

  /** Release deletes the shader exactly when the count it starts from is 1. */
  predicate ReleaseDeletes(s: ShaderState) {
    WrappingDecrement(s.refCount) == 0
  }

  /** The state after `n` Releases: the handle is kept or dropped, never replaced by another. */
  function ReleasedTimes(s: ShaderState, n: nat): (r: ShaderState)
    ensures r.glObject == s.glObject || r.glObject == NoShader
  {
    if n == 0 then s else Released(ReleasedTimes(s, n - 1))
  }

  /**
   * Release undoes Retain whenever the count was not 0; from 0, Retain then
   * Release deletes the shader instead.
   */
  lemma ReleaseUndoesRetain(s: ShaderState)
    ensures s.refCount != 0 ==> Released(Retained(s)) == s
    ensures s.refCount == 0 ==> Released(Retained(s)) == ShaderState(NoShader, 0)
  {
  }

  /**
   * With `count` owners of `handle`, the first `count - 1` Releases keep the
   * handle and count down, and the last one deletes it, leaving handle 0 and
   * count 0.
   */
  lemma {:induction false} OwnersReleaseInTurn(handle: uint32, count: uint32, k: nat)
    requires 1 <= count && k <= count as nat
    ensures k < count as nat ==> ReleasedTimes(ShaderState(handle, count), k) == ShaderState(handle, count - k as uint32)
    ensures k < count as nat ==> (ReleaseDeletes(ReleasedTimes(ShaderState(handle, count), k)) <==> k + 1 == count as nat)
    ensures k == count as nat ==> ReleasedTimes(ShaderState(handle, count), k) == ShaderState(NoShader, 0)
  {
    if k > 0 {
      OwnersReleaseInTurn(handle, count, k - 1);
    }
  }

  /**
   * A second Release after the one that deleted the shader wraps the count to
   * the largest uint and does not delete again.
   */
  lemma ReleaseAfterDeleteWraps(handle: uint32)
    ensures ReleaseDeletes(ShaderState(handle, 1))
    ensures Released(ShaderState(handle, 1)) == ShaderState(NoShader, 0)
    ensures !ReleaseDeletes(Released(ShaderState(handle, 1)))
    ensures Released(Released(ShaderState(handle, 1))) == ShaderState(NoShader, UInt32Max)
  {
  }

  class Shader {
    var glObject: uint32
    var refCount: uint32
    /** The handles this wrapper has passed to glDeleteShader, oldest first. */
    var deleted: seq<uint32>

    function State(): (s: ShaderState)
      reads this
    {
      ShaderState(glObject, refCount)
    }

    /** The start of the constructor: no handle, count 0. */
    constructor ()
      ensures State() == ShaderState(NoShader, 0) && deleted == []
    {
      glObject := NoShader;
      refCount := 0;
      deleted := [];
    }

    /**
     * The rest of the constructor. `created` is what glCreateShader returned
     * and `compileStatus` what the compile-status query returned. A zero
     * handle throws; a failed compile deletes the shader, drops the handle
     * and throws with the info log; otherwise the shader has the handle and
     * one owner.
     */
    method Create(created: uint32, compileStatus: int, infoLog: string) returns (outcome: Outcome<string>)
      requires State() == ShaderState(NoShader, 0) && deleted == []
      modifies this
      ensures created == NoShader ==>
        outcome == Fail("glCreateShader failed") && State() == ShaderState(NoShader, 0) && deleted == []
      ensures created != NoShader && compileStatus == 0 ==>
        outcome == Fail("Compile failure in shader: " + infoLog) &&
        State() == ShaderState(NoShader, 0) && deleted == [created]
      ensures created != NoShader && compileStatus != 0 ==>
        outcome == Pass && State() == ShaderState(created, 1) && deleted == []
    {
      glObject := created;
      if glObject == NoShader {
        return Fail("glCreateShader failed");
      }
      if compileStatus == 0 {
        var msg := "Compile failure in shader: ";
        msg := msg + infoLog;
        deleted := deleted + [glObject];
        glObject := NoShader;
        return Fail(msg);
      }
      refCount := 1;
      outcome := Pass;
    }

    /** The copy constructor: takes the other wrapper's handle and count as they are, and counts no new owner. */
    constructor Copy(other: Shader)
      ensures State() == other.State() && deleted == []
    {
      glObject := other.glObject;
      refCount := other.refCount;
      deleted := [];
    }

    method Retain()
      modifies this
      ensures State() == Retained(old(State()))
      ensures deleted == old(deleted)
    {
      refCount := WrappingIncrement(refCount);
    }

    method Release()
      modifies this
      ensures State() == Released(old(State()))
      ensures deleted == old(deleted) + if ReleaseDeletes(old(State())) then [old(glObject)] else []
    {
      refCount := WrappingDecrement(refCount);
      if refCount == 0 {
        deleted := deleted + [glObject];
        glObject := NoShader;
      }
    }

    method Dispose()
      modifies this
      ensures State() == Released(old(State()))
      ensures deleted == old(deleted) + if ReleaseDeletes(old(State())) then [old(glObject)] else []
    {
      Release();
    }
  }

  /**
   * A compiled shader disposed twice: the first Dispose deletes it, the second
   * wraps the count to the largest uint and deletes nothing.
   */
  method DisposeTwice(created: uint32, infoLog: string) returns (state: ShaderState, deletions: seq<uint32>)
    requires created != NoShader
    ensures state == ShaderState(NoShader, UInt32Max)
    ensures deletions == [created]
  {
    var shader := new Shader();
    var outcome := shader.Create(created, 1, infoLog);
    assert outcome == Pass;
    ReleaseAfterDeleteWraps(created);
    shader.Dispose();
    shader.Dispose();
    state, deletions := shader.State(), shader.deleted;
  }

  /**
   * A compiled shader and a copy of it each hold a count of 1 for the same
   * handle, so disposing both passes that handle to glDeleteShader twice.
   */
  method DisposeOriginalAndCopy(created: uint32, infoLog: string) returns (first: seq<uint32>, second: seq<uint32>)
    requires created != NoShader
    ensures first == [created] && second == [created]
  {
    var original := new Shader();
    var outcome := original.Create(created, 1, infoLog);
    assert outcome == Pass;
    var copy := new Shader.Copy(original);
    original.Dispose();
    copy.Dispose();
    first, second := original.deleted, copy.deleted;
  }
}
