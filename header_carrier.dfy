/**
 * The header carrier adapter: a text-header view over the attachment map of
 * one remote EJB invocation. The map is borrowed, never copied, so a header
 * written through the adapter is visible through every other reference to
 * that map.
 */
module HeaderCarrier {
  import opened Wrappers

  /** A value of a `Map<String, Object>` attachment: a string, null, or some other object. */
  datatype Attachment = Str(s: string) | NullRef | Other

  /**
   * What `getFirstHeader` yields: the Java `null` (key absent or mapped to
   * null), the stored string, or the `ClassCastException` thrown by the cast
   * when the stored object is not a string.
   */
  datatype Lookup = NoHeader | Text(value: string) | CastFailure

  /** A mutable `java.util.Map<String, Object>` on the heap, as the RPC layer owns it. */
  class AttachmentMap {
    var entries: map<string, Attachment>

    constructor Empty()
      ensures entries == map[]
    {
      entries := map[];
    }

    /** `Map.get`: the stored value, or none for an absent key. */
    method Get(key: string) returns (v: Option<Attachment>)
      ensures v.Some? <==> key in entries
      ensures v.Some? ==> v.value == entries[key]
    {
      v := if key in entries then Some(entries[key]) else None;
    }

    /** `Map.put`: insert or overwrite one key. */
    method Put(key: string, value: Attachment)
      modifies this
      ensures entries == old(entries)[key := value]
    {
      entries := entries[key := value];
    }
  }

  /** The specification of a header lookup in a carrier's entries. */
  function FirstHeader(entries: map<string, Attachment>, name: string): (r: Lookup)
    ensures r == NoHeader <==> name !in entries || entries[name] == NullRef
    ensures r.Text? <==> name in entries && entries[name].Str?
    ensures r.Text? ==> entries[name] == Str(r.value)
    ensures r == CastFailure <==> name in entries && entries[name] == Other
  {
    if name !in entries then NoHeader
    else match entries[name]
      case Str(s) => Text(s)
      case NullRef => NoHeader
      case Other => CastFailure
  }

  /** Entries under other keys never influence the lookup of `name`. */
  lemma LookupIgnoresOtherKeys(entries: map<string, Attachment>, name: string, key: string, value: Attachment)
    requires key != name
    ensures FirstHeader(entries[key := value], name) == FirstHeader(entries, name)
  {
  }

  /** Storing a string and looking it up gives back exactly that string. */
  lemma LookupAfterStore(entries: map<string, Attachment>, name: string, value: string)
    ensures FirstHeader(entries[name := Str(value)], name) == Text(value)
  {
  }

  class MapTextHeaderAccessor {
    /** The caller's map itself, not a copy. */
    const carrier: AttachmentMap

    constructor (carrier: AttachmentMap)
      ensures this.carrier == carrier
    {
      this.carrier := carrier;
    }

    /** `getFirstHeader`: a read-only lookup; a missing key is not an error. */
    method GetFirstHeader(headerName: string) returns (r: Lookup)
      ensures r == FirstHeader(carrier.entries, headerName)
      ensures headerName !in carrier.entries ==> r == NoHeader
    {
      var v := carrier.Get(headerName);
      if v.None? {
        r := NoHeader;
      } else {
        match v.value
        case Str(s) => r := Text(s);
        case NullRef => r := NoHeader;
        case Other => r := CastFailure;
      }
    }

    /** `addHeader`: writes the header into the shared carrier, overwriting any previous value. */
    method AddHeader(headerName: string, headerValue: string)
      modifies carrier
      ensures carrier.entries == old(carrier.entries)[headerName := Str(headerValue)]
      ensures FirstHeader(carrier.entries, headerName) == Text(headerValue)
      ensures forall k :: k != headerName ==> FirstHeader(carrier.entries, k) == FirstHeader(old(carrier.entries), k)
    {
      carrier.Put(headerName, Str(headerValue));
    }
  }

  /** Reading from an empty carrier yields null. */
  method LookupInEmptyCarrier(headerName: string) returns (r: Lookup)
    ensures r == NoHeader
  {
    var carrier := new AttachmentMap.Empty();
    var accessor := new MapTextHeaderAccessor(carrier);
    r := accessor.GetFirstHeader(headerName);
  }

  /** Reading from a carrier holding one header yields its value. */
  method LookupInSingleEntryCarrier(headerName: string, headerValue: string) returns (r: Lookup)
    ensures r == Text(headerValue)
  {
    var carrier := new AttachmentMap.Empty();
    carrier.Put(headerName, Str(headerValue));
    var accessor := new MapTextHeaderAccessor(carrier);
    r := accessor.GetFirstHeader(headerName);
  }

  /**
   * Reading among other entries yields the header's own value: the carrier
   * receives `before`, the header and `after` in that order.
   */
  method LookupAmongOtherEntries(headerName: string, headerValue: string,
                                 before: string, beforeValue: string,
                                 after: string, afterValue: string) returns (r: Lookup)
    requires after != headerName
    ensures r == Text(headerValue)
  {
    var carrier := new AttachmentMap.Empty();
    carrier.Put(before, Str(beforeValue));
    carrier.Put(headerName, Str(headerValue));
    carrier.Put(after, Str(afterValue));
    var accessor := new MapTextHeaderAccessor(carrier);
    r := accessor.GetFirstHeader(headerName);
  }

  /** A header added through the accessor is seen through the caller's own map reference. */
  method AddHeaderWritesThrough(headerName: string, headerValue: string) returns (seen: Option<Attachment>)
    ensures seen == Some(Str(headerValue))
  {
    var carrier := new AttachmentMap.Empty();
    var accessor := new MapTextHeaderAccessor(carrier);
    accessor.AddHeader(headerName, headerValue);
    seen := carrier.Get(headerName);
  }

  /** Adding a header and then reading it through the same accessor gives the written value. */
  method AddThenGetFirstHeader(accessor: MapTextHeaderAccessor, headerName: string, headerValue: string)
    returns (r: Lookup)
    modifies accessor.carrier
    ensures r == Text(headerValue)
    ensures accessor.carrier.entries == old(accessor.carrier.entries)[headerName := Str(headerValue)]
  {
    accessor.AddHeader(headerName, headerValue);
    r := accessor.GetFirstHeader(headerName);
  }
}
