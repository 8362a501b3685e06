// src/core/ErreurBase.ts: the common base of the application's errors, and
// the Result type every fallible operation of the model returns in place of
// a thrown exception.
module Erreurs {
  import opened Wrappers

  /** The concrete subclasses of ErreurBase thrown by the modelled code. */
  datatype ErrorClass =
    | ErreurAlignement
    | ErreurRealignement
    | ErreurDetectionCiblesConcentriques
    | ErreurDetectionAprilTags
    | ErreurConversion
    | ErreurPdfIncompatible
    | ErreurDocumentSource
    | ErreurLigneInvalide
    | ErreurInterpretationXLSX
    | ErreurDecoupeROIs

  /** `new.target.name`: the name of the instantiated subclass. */
  function ClassName(c: ErrorClass): string
  {
    match c
    case ErreurAlignement => "ErreurAlignement"
    case ErreurRealignement => "ErreurRealignement"
    case ErreurDetectionCiblesConcentriques => "ErreurDetectionCiblesConcentriques"
    case ErreurDetectionAprilTags => "ErreurDetectionAprilTags"
    case ErreurConversion => "ErreurConversion"
    case ErreurPdfIncompatible => "ErreurPdfIncompatible"
    case ErreurDocumentSource => "ErreurDocumentSource"
    case ErreurLigneInvalide => "ErreurLigneInvalide"
    case ErreurInterpretationXLSX => "ErreurInterpretationXLSX"
    case ErreurDecoupeROIs => "ErreurDecoupeROIs"
  }

  /** An ErreurBase instance: its subclass, its message and its optional cause. */
  datatype ErreurBase = ErreurBase(classe: ErrorClass, message: string, cause: Option<Thrown>)
  {
    function Name(): string { ClassName(classe) }
  }

  /**
   * Anything a `throw` can carry: an ErreurBase, any other Error (only its
   * message is kept), or a non-Error value, represented by what `String(value)`
   * gives for it.
   */
  datatype Thrown =
    | Base(e: ErreurBase)
    | StdError(message: string)
    | Other(text: string)

  /** The message a handler would read from the thrown value. */
  function MessageOf(x: Thrown): string
  {
    match x
    case Base(e) => e.message
    case StdError(m) => m
    case Other(s) => s
  }

  /** The outcome of an operation that may throw. */
  datatype Result<T> = Ok(value: T) | Err(error: Thrown)
  {
    predicate IsFailure() { Err? }
    function PropagateFailure<U>(): Result<U> requires Err? { Err(error) }
    function Extract(): T requires Ok? { value }
  }

  /** `throw new <classe>(message)`. */
  function Fail<T>(classe: ErrorClass, message: string): Result<T>
  {
    Err(Base(ErreurBase(classe, message, None)))
  }

  /** `throw new Error(message)`. */
  function FailStd<T>(message: string): Result<T>
  {
    Err(StdError(message))
  }

  predicate IsErrorOf<T>(r: Result<T>, classe: ErrorClass)
  {
    r.Err? && r.error.Base? && r.error.e.classe == classe
  }

  /**
   * ErreurBase.assigner, called on the subclass `classe`: an ErreurBase is
   * returned unchanged; a standard Error is wrapped with its message and kept
   * as the cause; any other value becomes the message of a new error.
   */
  function Assigner(classe: ErrorClass, x: Thrown): (r: ErreurBase)
    ensures r.message == MessageOf(x)
    ensures x.Base? ==> r == x.e
    ensures !x.Base? ==> r.classe == classe && r.Name() == ClassName(classe)
    ensures !x.Base? ==> (r.cause == Some(x) <==> x.StdError?)
    ensures x.Other? ==> r.cause.None?
  {
    match x
    case Base(e) => e
    case StdError(m) => ErreurBase(classe, m, Some(x))
    case Other(s) => ErreurBase(classe, s, None)
  }

  /** Normalising twice, under any two subclasses, is normalising once. */
  lemma AssignerIdempotent(c1: ErrorClass, c2: ErrorClass, x: Thrown)
    ensures Assigner(c2, Base(Assigner(c1, x))) == Assigner(c1, x)
  {
  }

  /** Subclass names are distinct, so `name` identifies the subclass. */
  lemma ClassNameInjective(c1: ErrorClass, c2: ErrorClass)
    ensures ClassName(c1) == ClassName(c2) ==> c1 == c2
  {
  }
}
