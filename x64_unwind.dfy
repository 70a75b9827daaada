/**
 * The x64 back end's choice of unwind format: System V through the
 * prologue scan, Windows not implemented, none when no unwind
 * information is requested.
 */
module X64Unwind {
  import opened Base
  import UnwindIr

  datatype UnwindInfoKind = NoUnwind | SystemVKind | WindowsKind

  /** `systemV` stands for the System V path (the scan followed by the
   *  shared builder, which is not part of this model). Windows panics. */
  function CreateUnwindInfo<C>(
    context: C,
    kind: UnwindInfoKind,
    systemV: C -> Result<Option<UnwindIr.SystemVUnwindInfo>, UnwindIr.CodegenError>)
    : (r: Exec<Result<Option<UnwindIr.UnwindInfo>, UnwindIr.CodegenError>>)
    ensures r.Panic? <==> kind == WindowsKind
    ensures kind == NoUnwind ==> r == Done(Ok(None))
    ensures kind == SystemVKind ==> r.Done? && (r.value.Err? <==> systemV(context).Err?)
    ensures kind == SystemVKind && systemV(context).Err? ==> r == Done(Err(systemV(context).error))
    // whatever the System V path produces is handed on unchanged, tagged as
    // System V; no other kind ever produces information
    ensures r.Done? && r.value.Ok? && r.value.value.Some? ==>
      (kind == SystemVKind && r.value.value.value.SystemV?
       && systemV(context) == Ok(Some(r.value.value.value.systemV)))
  {
    match kind
    case NoUnwind => Done(Ok(None))
    case WindowsKind => Panic("explicit panic")
    case SystemVKind =>
      match systemV(context)
      case Err(e) => Done(Err(e))
      case Ok(None) => Done(Ok(None))
      case Ok(Some(info)) => Done(Ok(Some(UnwindIr.SystemV(info))))
  }
}
