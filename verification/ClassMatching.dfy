/** Which objects and which events the controller takes part in. */
module ClassMatching {
  import opened Wrappers
  import opened KongFiles

  const CONTROLLER_CLASS_KEY := "developer.konghq.com/controller.class"

  datatype Matching = IgnoreClassMatch | ExactOrEmptyClassMatch | ExactClassMatch

  // ---------------------------------------------------------------- objects

  predicate HasAnnotation(obj: KongFile, key: string, expected: string) {
    key in obj.meta.annotations && obj.meta.annotations[key] == expected
  }

  predicate MatchesClass(obj: KongFile, cls: string) {
    HasAnnotation(obj, CONTROLLER_CLASS_KEY, cls)
  }

  predicate ValidController(value: string, cls: string, handling: Matching) {
    match handling
    case IgnoreClassMatch => true
    case ExactOrEmptyClassMatch => value == "" || value == cls
    case ExactClassMatch => value == cls
  }

  /** A missing annotation reads as the empty string. */
  predicate ClassValidator(obj: KongFile, cls: string, handling: Matching) {
    var value := if CONTROLLER_CLASS_KEY in obj.meta.annotations
                 then obj.meta.annotations[CONTROLLER_CLASS_KEY] else "";
    ValidController(value, cls, handling)
  }

  /** Both class tests side by side: what the controller accepts, the list view accepts; and what only
      the list view accepts is an object with an empty or missing annotation. */
  lemma ValidatorAgainstExactMatch(obj: KongFile, cls: string)
    ensures ClassValidator(obj, cls, ExactOrEmptyClassMatch) <==>
            MatchesClass(obj, cls) || ClassOf(obj) == None || ClassOf(obj) == Some("")
    ensures ClassValidator(obj, cls, ExactClassMatch) <==> MatchesClass(obj, cls) || (cls == "" && ClassOf(obj) == None)
    ensures ClassValidator(obj, cls, IgnoreClassMatch)
  {
  }

  /** What is looked at, by name. */
  function ClassOf(obj: KongFile): Option<string> {
    Lookup(obj.meta.annotations, "developer.konghq.com/controller.class")
  }

  /** The class test asks for exactly this value of exactly this annotation, and for nothing else. */
  lemma AnnotationDecides(obj: KongFile, cls: string)
    ensures MatchesClass(obj, cls) <==>
            Lookup(obj.meta.annotations, "developer.konghq.com/controller.class") == Some(cls)
  {
  }

  // ---------------------------------------------------------------- events

  /** What the informer reports when it moves from one version of a key to a later one. */
  datatype Event = NoEvent | CreateEvent(after: KongFile) | UpdateEvent(before: KongFile, after: KongFile)
                 | DeleteEvent(before: KongFile)

  function EventOf(shown: Option<KongFile>, next: Option<KongFile>): Event {
    match (shown, next)
    case (None, None) => NoEvent
    case (None, Some(after)) => CreateEvent(after)
    case (Some(before), None) => DeleteEvent(before)
    case (Some(before), Some(after)) => UpdateEvent(before, after)
  }

  predicate IsClassSpecConfigured(obj: KongFile, cls: string) {
    true
  }

  predicate ObjectPasses(obj: KongFile, cls: string, specCheck: bool, annotationCheck: bool) {
    (annotationCheck && MatchesClass(obj, cls)) || (specCheck && IsClassSpecConfigured(obj, cls))
  }

  predicate UpdatePasses(before: KongFile, after: KongFile, cls: string, specCheck: bool, annotationCheck: bool) {
    ((annotationCheck && MatchesClass(before, cls)) || MatchesClass(after, cls)) ||
    ((specCheck && IsClassSpecConfigured(before, cls)) || IsClassSpecConfigured(after, cls))
  }

  predicate EventPasses(event: Event, cls: string, specCheck: bool, annotationCheck: bool) {
    match event
    case NoEvent => false
    case CreateEvent(after) => ObjectPasses(after, cls, specCheck, annotationCheck)
    case UpdateEvent(before, after) => UpdatePasses(before, after, cls, specCheck, annotationCheck)
    case DeleteEvent(before) => ObjectPasses(before, cls, specCheck, annotationCheck)
  }

  /** The controller installs the filter with the spec check off and the annotation check on. */
  predicate Enqueues(event: Event, cls: string) {
    EventPasses(event, cls, false, true)
  }

  /** The filter only ever holds back creations and deletions of objects of another class. */
  lemma FilterExactly(event: Event, cls: string)
    ensures !Enqueues(event, cls) <==>
            event.NoEvent? ||
            (event.CreateEvent? && !MatchesClass(event.after, cls)) ||
            (event.DeleteEvent? && !MatchesClass(event.before, cls))
  {
  }

  /** The same for every way of installing it, by the value of the annotation. */
  lemma FilterByAnnotation(event: Event, cls: string, specCheck: bool, annotationCheck: bool)
    ensures EventPasses(event, cls, specCheck, annotationCheck) <==>
            match event
            case NoEvent => false
            case CreateEvent(after) => specCheck || (annotationCheck && ClassOf(after) == Some(cls))
            case UpdateEvent(_, _) => true
            case DeleteEvent(before) => specCheck || (annotationCheck && ClassOf(before) == Some(cls))
  {
  }
}
