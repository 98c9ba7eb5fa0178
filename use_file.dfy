/**
 * `useFile`: one file input in one of three states, with a size limit and
 * a `key` that is bumped to remount the input when the file is cleared.
 */
module UseFile {
  import opened Js

  datatype FileState = Idle | Selected | Error

  /** A `File`; only its size is inspected. */
  datatype File = File(name: string, size: nat)

  /** `config?.maxSizeBytes ?? Number.POSITIVE_INFINITY`. */
  datatype MaxSize = Bytes(limit: int) | Unlimited

  function MaxSizeOf(maxSizeBytes: Nullish<int>): (m: MaxSize)
    ensures m.Unlimited? <==> !maxSizeBytes.Value?
    ensures m.Bytes? ==> m.limit == maxSizeBytes.value
  {
    if maxSizeBytes.Value? then Bytes(maxSizeBytes.value) else Unlimited
  }

  /** `file.size > maxSizeBytes`. */
  predicate TooBig(size: nat, max: MaxSize)
  {
    max.Bytes? && size > max.limit
  }

  /** Without a limit no file is too big. */
  lemma UnlimitedAcceptsAll(size: nat)
    ensures !TooBig(size, MaxSizeOf(Undefined))
  {
  }

  /** `input`: its props and the React `key`. */
  datatype FileInput = FileInput(id: string, name: string, multiple: bool, key: nat)

  /** The object `useFile` returns, by state; `data` is `null` (None) unless selected. */
  datatype FileView = FileView(
    state: FileState, data: Option<File>,
    isIdle: bool, isSelected: bool, isError: bool,
    input: FileInput, labelProps: LabelProps)

  class FileHook {
    const name: string
    const maxSizeBytes: MaxSize
    /** The `key` state cell. */
    var key: nat
    /** The `state` state cell. */
    var state: FileState
    /** The `file` state cell; `null` is None. */
    var file: Option<File>

    ghost predicate Valid()
      reads this
    {
      state == Selected ==> file.Some?
    }

    /** `useFile(name, { maxSizeBytes })` on the first render. */
    constructor (name: string, maxSizeBytes: Nullish<int>)
      ensures Valid()
      ensures this.name == name && this.maxSizeBytes == MaxSizeOf(maxSizeBytes)
      ensures state == Idle && file == None && key == 0
    {
      this.name := name;
      this.maxSizeBytes := MaxSizeOf(maxSizeBytes);
      key := 0;
      state := Idle;
      file := None;
    }

    /** `selectFile`: `files` is the input's `files`, `null` when absent. */
    method SelectFile(files: Nullish<seq<File>>) returns (selected: Option<File>)
      requires Valid()
      modifies this
      ensures Valid()
      ensures key == old(key)
      ensures !files.Value? || files.value == [] ==>
        selected == None && state == old(state) && file == old(file)
      ensures files.Value? && files.value != [] && TooBig(files.value[0].size, maxSizeBytes) ==>
        selected == None && state == Error && file == old(file)
      ensures files.Value? && files.value != [] && !TooBig(files.value[0].size, maxSizeBytes) ==>
        selected == Some(files.value[0]) && state == Selected && file == selected
    {
      if !files.Value? || files.value == [] {
        return None;
      }
      var first := files.value[0];
      if TooBig(first.size, maxSizeBytes) {
        state := Error;
        return None;
      }
      file := Some(first);
      state := Selected;
      return Some(first);
    }

    /** `clearFile`: back to idle with no file, and a fresh input. */
    method ClearFile()
      requires Valid()
      modifies this
      ensures Valid()
      ensures key == old(key) + 1 && file == None && state == Idle
    {
      key := key + 1;
      file := None;
      state := Idle;
    }

    /** `matches(states)`: is the current state one of `states`? */
    function Matches(states: seq<FileState>): (r: bool)
      reads this
      ensures r <==> state in states
    {
      var current := state;
      Any(states, (given: FileState) => given == current)
    }

    /** The returned object. */
    function View(): (v: FileView)
      reads this
      requires Valid()
      ensures v.state == state
      ensures v.isIdle <==> state == Idle
      ensures v.isSelected <==> state == Selected
      ensures v.isError <==> state == Error
      ensures v.data.Some? <==> state == Selected
      ensures state == Selected ==> v.data == file
      ensures v.input == FileInput(name, name, false, key) && v.labelProps.htmlFor == name
    {
      var input := FileInput(name, name, false, key);
      var labelProps := LabelProps(name);
      match state
      case Idle => FileView(Idle, None, true, false, false, input, labelProps)
      case Selected => FileView(Selected, file, false, true, false, input, labelProps)
      case Error => FileView(Error, None, false, false, true, input, labelProps)
    }
  }

  /** Exactly one of the three flags of a view holds. */
  lemma ViewFlagsExclusive(f: FileHook)
    requires f.Valid()
    ensures var v := f.View();
      (v.isIdle && !v.isSelected && !v.isError)
      || (!v.isIdle && v.isSelected && !v.isError)
      || (!v.isIdle && !v.isSelected && v.isError)
  {
  }
}
