/**
 * Loading the ShowMySky renderer library and negotiating its binary
 * interface, as GLWidget::initializeGL does before it creates a renderer.
 *
 * The dynamic loader is replaced by a value: whether the library loads and
 * which symbols it exports. Resolving a name gives the symbol's address, or
 * 0 (a null pointer) when the library does not export it.
 */
module Plugin {
  import opened Wrappers

  const AbiSymbol := "ShowMySky_ABI_version"
  const FactorySymbol := "ShowMySky_AtmosphereRenderer_create"

  /** An exported symbol: its address and the 32-bit word stored there. */
  datatype Symbol = Symbol(address: nat, word: uint32)

  /** A library as the loader sees it. */
  datatype Library = Library(loads: bool, symbols: map<string, Symbol>)

  /** Address of an exported symbol, 0 (null) when it is not exported. */
  function Resolve(lib: Library, name: string): (addr: nat)
    ensures name !in lib.symbols ==> addr == 0
  {
    if name in lib.symbols then lib.symbols[name].address else 0
  }

  /**
   * The failures of the load sequence. Each is thrown as a DataLoadError;
   * the mismatch carries both versions because its message prints them.
   */
  datatype LoadError =
    | LibraryLoadFailed
    | AbiVersionUnknown
    | AbiVersionMismatch(found: uint32, expected: uint32)
    | FactoryUnresolved

  datatype Result<T> = Ok(value: T) | Err(error: LoadError)

  /**
   * The fail-fast load sequence: load, resolve the ABI version, compare it
   * with the version compiled into the program, resolve the factory. On
   * success the result is the factory's (non-null) address.
   */
  function Negotiate(lib: Library, compiledAbi: uint32): (r: Result<nat>)
    ensures r.Ok? ==> r.value != 0 && r.value == Resolve(lib, FactorySymbol)
    ensures r.Ok? <==> lib.loads && Resolve(lib, AbiSymbol) != 0 &&
                       lib.symbols[AbiSymbol].word == compiledAbi && Resolve(lib, FactorySymbol) != 0
  {
    if !lib.loads then Err(LibraryLoadFailed)
    else if Resolve(lib, AbiSymbol) == 0 then Err(AbiVersionUnknown)
    else if lib.symbols[AbiSymbol].word != compiledAbi then
      Err(AbiVersionMismatch(lib.symbols[AbiSymbol].word, compiledAbi))
    else if Resolve(lib, FactorySymbol) == 0 then Err(FactoryUnresolved)
    else Ok(Resolve(lib, FactorySymbol))
  }

  /**
   * Which error is raised: the first failing step of the sequence decides,
   * whatever the later steps would have found.
   */
  lemma NegotiateFailsAtFirstFailingStep(lib: Library, compiledAbi: uint32)
    ensures !lib.loads ==> Negotiate(lib, compiledAbi) == Err(LibraryLoadFailed)
    ensures lib.loads && Resolve(lib, AbiSymbol) == 0 ==> Negotiate(lib, compiledAbi) == Err(AbiVersionUnknown)
    ensures lib.loads && Resolve(lib, AbiSymbol) != 0 && lib.symbols[AbiSymbol].word != compiledAbi ==>
      Negotiate(lib, compiledAbi) == Err(AbiVersionMismatch(lib.symbols[AbiSymbol].word, compiledAbi))
    ensures (lib.loads && Resolve(lib, AbiSymbol) != 0 && lib.symbols[AbiSymbol].word == compiledAbi &&
             Resolve(lib, FactorySymbol) == 0) ==> Negotiate(lib, compiledAbi) == Err(FactoryUnresolved)
  {
  }

  /** Conversely, each error names the step that failed and says that every earlier step succeeded. */
  lemma NegotiateErrorExplained(lib: Library, compiledAbi: uint32)
    ensures Negotiate(lib, compiledAbi) == Err(LibraryLoadFailed) ==> !lib.loads
    ensures Negotiate(lib, compiledAbi) == Err(AbiVersionUnknown) ==> lib.loads && Resolve(lib, AbiSymbol) == 0
    ensures Negotiate(lib, compiledAbi).Err? && Negotiate(lib, compiledAbi).error.AbiVersionMismatch? ==>
      var e := Negotiate(lib, compiledAbi).error;
      lib.loads && Resolve(lib, AbiSymbol) != 0 && e.found == lib.symbols[AbiSymbol].word &&
      e.expected == compiledAbi && e.found != e.expected
    ensures Negotiate(lib, compiledAbi) == Err(FactoryUnresolved) ==>
      lib.loads && Resolve(lib, AbiSymbol) != 0 && lib.symbols[AbiSymbol].word == compiledAbi &&
      Resolve(lib, FactorySymbol) == 0
  {
  }

  /** Only an exact version match can succeed: no forward or backward compatibility. */
  lemma VersionMustMatchExactly(lib: Library, compiledAbi: uint32)
    requires Negotiate(lib, compiledAbi).Ok?
    ensures AbiSymbol in lib.symbols && lib.symbols[AbiSymbol].word == compiledAbi
  {
  }
}
