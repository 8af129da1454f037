/** The persistence collaborators (YAML files, the pickled session), reduced
    to in-memory cells, and the errors the use cases raise. */
module Stores {
  import opened Wrappers

  /** The repository-layer exceptions (repositories/errors.py,
      infrastructure/errors.py). */
  datatype RepoError = ReadError | WriteError | ParseError | ConnectionError

  /** What a store currently holds: nothing readable (the file cannot be
      opened), something that does not parse, or a value. */
  datatype Stored<T> = Unreadable | Malformed | Holds(value: T)

  /** `read()`: the value, or ReadError / ParseError. */
  function ReadOf<T>(c: Stored<T>): (r: Result<T, RepoError>)
    ensures c.Holds? <==> r.Success?
    ensures c.Holds? ==> r.value == c.value
    ensures c.Unreadable? ==> r == Failure(ReadError)
    ensures c.Malformed? ==> r == Failure(ParseError)
  {
    match c
    case Unreadable => Failure(ReadError)
    case Malformed => Failure(ParseError)
    case Holds(v) => Success(v)
  }

  /** A store with `read()` and `write(v)`; `writes` lists every value
      written so far, in order. */
  class Store<T> {
    var cell: Stored<T>
    var writable: bool
    var writes: seq<T>

    constructor (cell: Stored<T>, writable: bool)
      ensures this.cell == cell && this.writable == writable && writes == []
    {
      this.cell := cell;
      this.writable := writable;
      writes := [];
    }

    method Read() returns (r: Result<T, RepoError>)
      ensures r == ReadOf(cell)
    {
      r := ReadOf(cell);
    }

    /** A successful write replaces the content; a failed one changes nothing. */
    method Write(v: T) returns (r: Outcome<RepoError>)
      modifies this
      ensures writable == old(writable)
      ensures old(writable) ==> r == Pass && cell == Holds(v) && writes == old(writes) + [v]
      ensures !old(writable) ==> r == Fail(WriteError) && unchanged(this)
    {
      if writable {
        cell := Holds(v);
        writes := writes + [v];
        r := Pass;
      } else {
        r := Fail(WriteError);
      }
    }
  }

  /** The use-case-level exceptions (services/errors.py,
      application/usecases/errors.py), a repository error that the layer
      does not catch, and the KeyError of a dictionary lookup. */
  datatype AppError =
    | ConfigAccessError
    | AtcoderAccessError
    | UndefinedLanguage
    | Uncaught(cause: RepoError)
    | KeyMissing(key: string)

  /** Which read failures a layer translates: the interactor and use-case
      layers catch ReadError and ParseError, the service layer ReadError only. */
  datatype CatchPolicy = ReadAndParse | ReadOnly

  /** The error a failed configuration read surfaces as. */
  function ReadFailure(p: CatchPolicy, e: RepoError): (f: AppError)
    ensures e == ReadError ==> f == ConfigAccessError
    ensures e == ParseError ==> f == (if p == ReadAndParse then ConfigAccessError else Uncaught(ParseError))
    ensures e != ReadError && e != ParseError ==> f == Uncaught(e)
  {
    if e == ReadError || (e == ParseError && p == ReadAndParse) then ConfigAccessError
    else Uncaught(e)
  }

  /** A failed write surfaces as a ConfigAccessError in every layer. */
  function WriteFailure(r: Outcome<RepoError>): (f: Outcome<AppError>)
    ensures f == Pass <==> r == Pass
    ensures r.Fail? && r.error == WriteError ==> f == Fail(ConfigAccessError)
  {
    match r
    case Pass => Pass
    case Fail(e) => Fail(if e == WriteError then ConfigAccessError else Uncaught(e))
  }
}
