/**
 * The text form of a PersistableBundle. The store wraps the bundle's own XML in a
 * `persistable_bundle` element on the way out and checks for that element on the
 * way back; the XML library itself is not modelled and enters as an XmlLibrary value.
 */
module BundleXml {
  import opened Wrappers
  import opened Platform

  const TAG_PERSISTABLEBUNDLE := "persistable_bundle"

  /** The structural events of an XML document, as a serializer writes and a pull parser reports them. */
  datatype XmlEvent =
    | StartDocument
    | EndDocument
    | StartTag(name: string)
    | EndTag(name: string)
    | Text(text: string)

  /**
   * The XML library the store calls. Each operation yields None where the library
   * throws an IOException or an XmlPullParserException.
   *   saveToXml:      the events PersistableBundle.saveToXml writes for a bundle
   *   serialize:      the text an XmlSerializer produces for a sequence of events
   *   parse:          the events an XmlPullParser reports for a text, after its initial START_DOCUMENT
   *   restoreFromXml: the bundle PersistableBundle.restoreFromXml reads from the events after the opening tag
   */
  datatype XmlLibrary = XmlLibrary(
    saveToXml: PersistableBundle -> Option<seq<XmlEvent>>,
    serialize: seq<XmlEvent> -> Option<string>,
    parse: string -> Option<seq<XmlEvent>>,
    restoreFromXml: seq<XmlEvent> -> Option<PersistableBundle>)

  /** The document written for a bundle whose own events are `body`. */
  function Document(body: seq<XmlEvent>): seq<XmlEvent> {
    [StartDocument, StartTag(TAG_PERSISTABLEBUNDLE)] + body + [EndTag(TAG_PERSISTABLEBUNDLE), EndDocument]
  }

  /** Whether the first event the parser reports for `text` opens the wrapper element. */
  ghost predicate OpensWithWrapper(xml: XmlLibrary, text: string) {
    match xml.parse(text)
    case None => false
    case Some(events) => |events| > 0 && events[0].StartTag? && events[0].name == TAG_PERSISTABLEBUNDLE
  }

  /** persistableBundleToString: null for a null bundle or when the library throws. */
  function BundleToString(bundle: Option<PersistableBundle>, xml: XmlLibrary): (r: Option<string>)
    ensures bundle.None? ==> r.None?
    ensures r.Some? ==> bundle.Some? && xml.saveToXml(bundle.value).Some?
  {
    match bundle
    case None => None
    case Some(b) =>
      match xml.saveToXml(b)
      case None => None
      case Some(body) => xml.serialize(Document(body))
  }

  /**
   * stringToPersistableBundle: null for a null string, when the library throws, or
   * when the first event is not the opening of the wrapper element.
   */
  function StringToBundle(text: Option<string>, xml: XmlLibrary): (r: Option<PersistableBundle>)
    ensures r.Some? ==> text.Some? && OpensWithWrapper(xml, text.value)
  {
    match text
    case None => None
    case Some(s) =>
      match xml.parse(s)
      case None => None
      case Some(events) =>
        if |events| > 0 && events[0].StartTag? && events[0].name == TAG_PERSISTABLEBUNDLE
        then xml.restoreFromXml(events[1..])
        else None
  }

  /**
   * What the library is assumed to guarantee, for the documents this store writes
   * only (the wrapper around the events saveToXml produced for some bundle): the
   * parser reports back the events of such a document once serialized, and
   * restoreFromXml reads back what saveToXml wrote.
   */
  ghost predicate LibraryRoundTrips(xml: XmlLibrary) {
    && (forall b: PersistableBundle {:trigger xml.saveToXml(b)} ::
          xml.saveToXml(b).Some? && xml.serialize(Document(xml.saveToXml(b).value)).Some?
          ==> xml.parse(xml.serialize(Document(xml.saveToXml(b).value)).value) == Some(Document(xml.saveToXml(b).value)[1..]))
    && (forall b: PersistableBundle ::
          xml.saveToXml(b).Some?
          ==> xml.restoreFromXml(xml.saveToXml(b).value + [EndTag(TAG_PERSISTABLEBUNDLE), EndDocument]) == Some(b))
  }

  /** The wrapper written by BundleToString is the one StringToBundle checks for. */
  lemma BundleRoundTrip(xml: XmlLibrary, b: PersistableBundle)
    requires LibraryRoundTrips(xml)
    requires BundleToString(Some(b), xml).Some?
    ensures StringToBundle(BundleToString(Some(b), xml), xml) == Some(b)
  {
    var body := xml.saveToXml(b).value;
    var doc := Document(body);
    assert doc[0] == StartDocument;
    var events := doc[1..];
    assert xml.parse(xml.serialize(doc).value) == Some(events);
    assert events[0] == StartTag(TAG_PERSISTABLEBUNDLE);
    assert events[1..] == body + [EndTag(TAG_PERSISTABLEBUNDLE), EndDocument];
  }
}
