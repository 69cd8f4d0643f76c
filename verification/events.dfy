/**
 * The parsed webhook event, as far as the handler reads it. Every JSON key the handler
 * looks up may be absent, so each is an `Option`; the lists are sequences.
 */
module Events {
  import opened Wrappers

  /** `{"id": ...}` under a line item's or display item's `price`. */
  datatype Price = Price(id: Option<string>)

  /** An element of `line_items` or `display_items`. */
  datatype Item = Item(price: Option<Price>)

  /** `{"value": ...}` under a custom field's `text`. */
  datatype FieldText = FieldText(value: Option<string>)

  /** An element of `custom_fields`: `{"key": ..., "text": {"value": ...}}`. */
  datatype CustomField = CustomField(key: Option<string>, text: Option<FieldText>)

  /** The session's `metadata` object; only its `price` entry is read. */
  datatype Metadata = Metadata(price: Option<string>)

  /** The checkout session, `event["data"]["object"]`. */
  datatype Session = Session(
    customFields: Option<seq<CustomField>>,
    customerEmail: Option<string>,
    lineItems: Option<seq<Item>>,
    metadata: Option<Metadata>,
    displayItems: Option<seq<Item>>)

  /** `event["data"]`; `obj` is its `object` entry. */
  datatype EventData = EventData(obj: Option<Session>)

  /** The request body: the event `type` and its `data`. */
  datatype Event = Event(eventType: Option<string>, data: Option<EventData>)

  /**
   * The Python exceptions a lookup can raise inside the handler: indexing a dictionary
   * with a missing key, or taking element 0 of an empty list.
   */
  datatype Failure = KeyError(key: string) | IndexError

  /** Python truthiness of an optional string: absent (`None`) and `""` are false. */
  predicate Truthy(s: Option<string>) {
    s.Some? && s.value != ""
  }

  /** `session.get('custom_fields', [])` */
  function CustomFields(s: Session): seq<CustomField> {
    if s.customFields.Some? then s.customFields.value else []
  }

  /** `field.get('key') == 'email'` */
  predicate IsEmailField(f: CustomField) {
    f.key == Some("email")
  }

  /** `field.get('text', {}).get('value')` */
  function FieldValue(f: CustomField): Option<string> {
    if f.text.Some? then f.text.value.value else None
  }

  /** `item.get('price', {}).get('id')` */
  function ItemPriceId(item: Item): Option<string> {
    if item.price.Some? then item.price.value.id else None
  }

  /** `session.get('metadata', {}).get('price')` */
  function MetadataPrice(s: Session): Option<string> {
    if s.metadata.Some? then s.metadata.value.price else None
  }

  /** `items[0].get('price', {}).get('id')`, which raises on an empty list. */
  function FirstItemPriceId(items: seq<Item>): (r: Result<Option<string>, Failure>)
    ensures r.Err? <==> items == []
    ensures r.Ok? ==> r.value == ItemPriceId(items[0])
  {
    if |items| == 0 then Err(IndexError) else Ok(ItemPriceId(items[0]))
  }

  /** `event['data']['object']`, raising KeyError naming the first missing key. */
  function SessionOf(e: Event): (r: Result<Session, Failure>)
    ensures r.Ok? <==> e.data.Some? && e.data.value.obj.Some?
    ensures r.Ok? ==> r.value == e.data.value.obj.value
    ensures r.Err? ==> r.error == (if e.data.None? then KeyError("data") else KeyError("object"))
  {
    match e.data
    case None => Err(KeyError("data"))
    case Some(d) =>
      match d.obj
      case None => Err(KeyError("object"))
      case Some(s) => Ok(s)
  }
}
