/** How `HTTPConnection.__init__` splits its options between the HTTP/1.1
    and the HTTP/2 transport (hyper/common/connection.py:43-60). */
module Config {
  import opened Types

  const Self := "self"
  const Host := "host"
  const Port := "port"
  const Secure := "secure"
  const WindowManager := "window_manager"
  const EnablePush := "enable_push"

  /** The parameters `__init__` names itself, the instance `self` included;
      Python never puts one of these into `**kwargs`. */
  const NamedParameters: set<string> := {Self, Host, Port, Secure, WindowManager, EnablePush}

  /** The parameters that are already bound positionally in a call
      `HTTPConnection(host, **kw)`: the instance and the host. */
  const PositionalParameters: set<string> := {Self, Host}

  /** What Python's calling convention guarantees of `**kwargs`. */
  predicate ExtraKeywords(extras: Kwargs) {
    extras.Keys !! NamedParameters
  }

  /** The arguments of `__init__` after binding, defaults filled in. */
  datatype Arguments = Arguments(port: Value, secure: Value, windowManager: Value, enablePush: Value, extras: Kwargs)

  /** Python's TypeError "got multiple values for argument". */
  datatype BindError = MultipleValues(name: string)

  function KeywordOr(kw: Kwargs, name: string, default: Value): Value {
    if name in kw then kw[name] else default
  }

  /** Binds a call `HTTPConnection(host, **kw)` to the signature at
      hyper/common/connection.py:43-49: every named parameter takes its
      keyword if given and its default otherwise, and what is left goes to
      `**kwargs`. A keyword `self` or `host` clashes with the instance or the
      positional host. */
  function BindKeywords(kw: Kwargs): (r: Result<Arguments, BindError>)
    ensures r.Err? <==> Self in kw || Host in kw
    ensures r.Err? ==> r.error.name in PositionalParameters && r.error.name in kw
    ensures r.Ok? ==> ExtraKeywords(r.value.extras)
    ensures r.Ok? ==> r.value.extras.Keys == kw.Keys - NamedParameters
    ensures r.Ok? ==> forall k :: k in r.value.extras ==> r.value.extras[k] == kw[k]
    ensures r.Ok? ==> r.value.port == (if Port in kw then kw[Port] else PyNone)
    ensures r.Ok? ==> r.value.secure == (if Secure in kw then kw[Secure] else PyNone)
    ensures r.Ok? ==> r.value.windowManager == (if WindowManager in kw then kw[WindowManager] else PyNone)
    ensures r.Ok? ==> r.value.enablePush == (if EnablePush in kw then kw[EnablePush] else PyBool(false))
  {
    if Self in kw then Err(MultipleValues(Self))
    else if Host in kw then Err(MultipleValues(Host))
    else
      Ok(Arguments(
        KeywordOr(kw, Port, PyNone),
        KeywordOr(kw, Secure, PyNone),
        KeywordOr(kw, WindowManager, PyNone),
        KeywordOr(kw, EnablePush, PyBool(false)),
        kw - NamedParameters))
  }

  /** `_h1_kwargs`: `{'secure': secure}` updated with the extras. */
  function H1Kwargs(secure: Value, extras: Kwargs): (m: Kwargs)
    ensures m.Keys == {Secure} + extras.Keys
    ensures forall k :: k in extras ==> m[k] == extras[k]
    ensures Secure !in extras ==> m[Secure] == secure
  {
    map[Secure := secure] + extras
  }

  /** `_h2_kwargs`: `{'window_manager': ..., 'enable_push': ...}` updated
      with the extras. */
  function H2Kwargs(windowManager: Value, enablePush: Value, extras: Kwargs): (m: Kwargs)
    ensures m.Keys == {WindowManager, EnablePush} + extras.Keys
    ensures forall k :: k in extras ==> m[k] == extras[k]
    ensures WindowManager !in extras ==> m[WindowManager] == windowManager
    ensures EnablePush !in extras ==> m[EnablePush] == enablePush
  {
    map[WindowManager := windowManager, EnablePush := enablePush] + extras
  }

  /** The partition: each named option lands in its own map only, always
      present even when None or False; the extras land in both maps with the
      same values, and are exactly what the two maps share. */
  lemma Partition(secure: Value, windowManager: Value, enablePush: Value, extras: Kwargs)
    requires ExtraKeywords(extras)
    ensures var h1, h2 := H1Kwargs(secure, extras), H2Kwargs(windowManager, enablePush, extras);
      && h1[Secure] == secure
      && h2[WindowManager] == windowManager && h2[EnablePush] == enablePush
      && Secure !in h2 && WindowManager !in h1 && EnablePush !in h1
      && h1.Keys * h2.Keys == extras.Keys
      && (forall k :: k in extras ==> h1[k] == h2[k] == extras[k])
      && h1 - {Secure} == extras
      && h2 - {WindowManager, EnablePush} == extras
  {
  }

  /** Every option a caller passes to the constructor, other than the port,
      reaches at least one of the two maps with the value the caller gave. */
  lemma KeywordsPreserved(kw: Kwargs)
    requires BindKeywords(kw).Ok?
    ensures var a := BindKeywords(kw).value;
      var h1, h2 := H1Kwargs(a.secure, a.extras), H2Kwargs(a.windowManager, a.enablePush, a.extras);
      forall k :: k in kw && k != Port ==> (k in h1 && h1[k] == kw[k]) || (k in h2 && h2[k] == kw[k])
  {
  }
}
