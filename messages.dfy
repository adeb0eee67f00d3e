/**
 * What goes wrong, as Python reports it: the exception class each error is
 * raised as, and the message text the pipeline code writes for the ones it
 * raises itself.
 */
module Messages {
  import opened Wrappers
  import opened Capabilities
  import opened Stages
  import opened Pipelines

  /** The Python exception classes the core raises or lets through. */
  datatype ExceptionClass = AttributeError | RuntimeError | IndexError | ModuleNotFoundError

  /**
   * The class each error is raised as.  `getattr` on a missing member
   * raises `AttributeError` like the pipeline's own checks do; a short
   * identifier fails in `split('.')[-2]`; the handlers' lookups raise
   * `RuntimeError`.
   */
  function ExceptionOf(e: Error): ExceptionClass
  {
    match e
    case MalformedIdentifier(_) => IndexError
    case ModuleNotFound(_) => ModuleNotFoundError
    case Dispatch(_) => RuntimeError
    case _ => AttributeError
  }

  /**
   * The errors the search of `loadAdditionalStage` passes over, those of
   * `instantiateConsumerOf`, are exactly what its `except AttributeError`
   * catches; the errors of loading the module are raised before the loop.
   */
  lemma InstantiateErrorsAreCaught(t: StageType, cls: string, consumer: string)
    ensures InstantiateError(t, cls, consumer).Some? ==> ExceptionOf(InstantiateError(t, cls, consumer).value) == AttributeError
  {
  }

  /** The text before the consumer name in the message for a class that does not consume it. */
  const MissingConsumerPrefix: string := " does not have a \""

  /** The text after the consumer name. */
  const MissingConsumerSuffix: string := "\" Consumer"

  /**
   * The message as written: the second literal of the implicit concatenation
   * has no `f` prefix, so `{consumer}` stays in the text as it is.
   */
  function MissingConsumerAsWritten(cls: string, consumer: string): string
  {
    cls + MissingConsumerPrefix + "{consumer}" + MissingConsumerSuffix
  }

  /** As written, a class that lacks `'None'` and one that lacks `'Integer'` get the same message. */
  lemma MissingConsumerAsWrittenLosesName(cls: string)
    ensures MissingConsumerAsWritten(cls, "None") == MissingConsumerAsWritten(cls, "Integer")
  {
  }

  /** The message with the consumer name put in, as the placeholder intends. */
  function MissingConsumerMessage(cls: string, consumer: string): string
  {
    cls + MissingConsumerPrefix + consumer + MissingConsumerSuffix
  }

  /** The corrected message names the consumer: it can be read back from the text. */
  lemma MissingConsumerNamesConsumer(cls: string, consumer: string)
    ensures var m := MissingConsumerMessage(cls, consumer);
      |m| == |cls| + |MissingConsumerPrefix| + |consumer| + |MissingConsumerSuffix| &&
      m[..|cls|] == cls &&
      m[|cls| + |MissingConsumerPrefix|..|cls| + |MissingConsumerPrefix| + |consumer|] == consumer
  {
    var m := MissingConsumerMessage(cls, consumer);
    var i := |cls| + |MissingConsumerPrefix|;
    assert m == (cls + MissingConsumerPrefix) + consumer + MissingConsumerSuffix;
    assert m[..|cls|] == cls;
    assert m[i..i + |consumer|] == consumer;
  }

  /** For one class, two consumers get the same corrected message only when they are the same name. */
  lemma MissingConsumerMessageInjective(cls: string, c1: string, c2: string)
    ensures MissingConsumerMessage(cls, c1) == MissingConsumerMessage(cls, c2) <==> c1 == c2
  {
    if MissingConsumerMessage(cls, c1) == MissingConsumerMessage(cls, c2) {
      MissingConsumerNamesConsumer(cls, c1);
      MissingConsumerNamesConsumer(cls, c2);
    }
  }

  /** The `RuntimeError` text of `consume` and `provide`. */
  function DispatchMessage(d: DispatchError): string
  {
    match d
    case NoConsumers => "This class has no consumers"
    case DoesNotConsume(t) => "This class does not consume " + t
    case NoProviders => "This class has no providers"
    case DoesNotProvide(t) => "This class does not provide " + t
  }

  /**
   * The message text of an error the core raises itself, as the code
   * writes it; `None` for the ones Python raises (`IndexError`,
   * `ModuleNotFoundError`, and the `AttributeError` of `getattr`), whose
   * text the core does not choose.
   */
  function Message(e: Error): Option<string>
  {
    match e
    case NotAClass(id) => Some("Class named " + id + " not found")
    case MissingConsumer(cls, consumer) => Some(MissingConsumerAsWritten(cls, consumer))
    case NotAStage(cls) => Some(cls + " is not a Pipeline Stage")
    case NoConsumerForPrecedents(id) => Some(id + " has no Consumer for precedents")
    case FinalNotSink => Some("Final stage does not implement \"None\" provider")
    case Dispatch(d) => Some(DispatchMessage(d))
    case _ => None
  }

  /** The core writes a message for every error it raises itself, and only for those. */
  lemma MessageIffRaisedByCore(e: Error)
    ensures Message(e).None? <==> e.MalformedIdentifier? || e.ModuleNotFound? || e.NoSuchMember?
  {
  }

  /**
   * As raised, the message for a missing consumer starts with the class
   * name, but its text is the same whichever consumer is missing.
   */
  lemma MissingConsumerErrorMessage(cls: string, c1: string, c2: string)
    ensures Message(MissingConsumer(cls, c1)).Some?
    ensures Message(MissingConsumer(cls, c1)).value[..|cls|] == cls
    ensures Message(MissingConsumer(cls, c1)) == Message(MissingConsumer(cls, c2))
  {
    var m := MissingConsumerAsWritten(cls, c1);
    assert m == cls + (MissingConsumerPrefix + "{consumer}" + MissingConsumerSuffix);
  }

  /** The message text with the missing-consumer message corrected to name the consumer. */
  function CorrectedMessage(e: Error): Option<string>
  {
    match e
    case MissingConsumer(cls, consumer) => Some(MissingConsumerMessage(cls, consumer))
    case _ => Message(e)
  }

  /**
   * With the correction the message for a missing consumer starts with the
   * class name and names the consumer, so two different missing consumers
   * of one class are told apart; every other message is as raised.
   */
  lemma CorrectedMessageNamesConsumer(cls: string, c1: string, c2: string)
    ensures CorrectedMessage(MissingConsumer(cls, c1)).Some?
    ensures var m := CorrectedMessage(MissingConsumer(cls, c1)).value;
      m[..|cls|] == cls && m[|cls| + |MissingConsumerPrefix|..|cls| + |MissingConsumerPrefix| + |c1|] == c1
    ensures CorrectedMessage(MissingConsumer(cls, c1)) == CorrectedMessage(MissingConsumer(cls, c2)) <==> c1 == c2
  {
    MissingConsumerNamesConsumer(cls, c1);
    MissingConsumerMessageInjective(cls, c1, c2);
  }
}
