/**
 * The vocabulary in which a REST resource declares which properties it renders for a
 * representation and which properties a client may send when creating or updating.
 * Only the property names, their rendering mode, the required flag and the link names
 * are kept; the rendering engine itself belongs to the host framework.
 */
module Descriptions {

  /** The representation a client asks for. */
  datatype Representation = Default | Full | Ref | Named(name: string)

  /**
   * The properties used by the attribute and attribute-type resources; `AttributeTypeRef` is
   * the "attributeType" property, `DescriptionText` the "description" property.
   */
  datatype Field =
    | Uuid | Display | Value | AttributeTypeRef | Voided | AuditInfo
    | Name | DescriptionText | MinOccurs | MaxOccurs | DatatypeClassname | DatatypeConfig
    | PreferredHandlerClassname | HandlerConfig | Retired

  /** How a property is rendered. */
  datatype Mode =
    | Plain                    // the delegate's own property
    | AsRef                    // a nested object, rendered in its reference representation
    | Computed(getter: string) // the value returned by a method of the resource

  datatype Property = Property(field: Field, mode: Mode, required: bool)

  /** The links a representation carries: to itself, and to the full representation. */
  datatype Link = SelfLink | FullLink

  /** A resource description: its properties in insertion order and its links. */
  datatype Description = Description(properties: seq<Property>, links: seq<Link>)

  /** An optional property rendered from the delegate itself. */
  function Prop(f: Field): Property { Property(f, Plain, false) }

  /** A property a client must supply. */
  function RequiredProp(f: Field): Property { Property(f, Plain, true) }

  /** The fields of a list of properties, keeping those whose required flag is in `flags`. */
  function FieldsWith(props: seq<Property>, flags: set<bool>): set<Field> {
    if props == [] then {}
    else (if props[0].required in flags then {props[0].field} else {}) + FieldsWith(props[1..], flags)
  }

  /** Collecting fields distributes over concatenation. */
  lemma {:induction false} FieldsWithConcat(a: seq<Property>, b: seq<Property>, flags: set<bool>)
    ensures FieldsWith(a + b, flags) == FieldsWith(a, flags) + FieldsWith(b, flags)
    decreases |a|
  {
    if a != [] {
      assert (a + b)[0] == a[0] && (a + b)[1..] == a[1..] + b;
      FieldsWithConcat(a[1..], b, flags);
    } else {
      assert a + b == b;
    }
  }

  function Fields(d: Description): set<Field> {
    FieldsWith(d.properties, {true, false})
  }

  function RequiredFields(d: Description): set<Field> {
    FieldsWith(d.properties, {true})
  }

  function OptionalFields(d: Description): set<Field> {
    FieldsWith(d.properties, {false})
  }

  /** No property is declared twice, as in the host's keyed description. */
  predicate DistinctFields(d: Description) {
    forall i, j :: 0 <= i < j < |d.properties| ==> d.properties[i].field != d.properties[j].field
  }
}
