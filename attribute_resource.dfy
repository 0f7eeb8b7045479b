/**
 * The REST sub-resource for attributes nested under their owner (location attributes
 * under a Location, provider attributes under a Provider): attaching an attribute to its
 * owner without duplicates, the soft delete, the refused purge, the display string, the
 * listing of active attributes, the back-reference accessors and the property descriptions.
 */
module AttributeResource {
  import opened Wrappers
  import opened Sequences
  import opened Descriptions
  import Types = AttributeTypeResource

  /** The two resources differ only in the kind of owner they nest under. */
  datatype ParentKind = LocationParent | ProviderParent

  /** The name of the entity each resource serves, as used in its messages. */
  function EntityName(kind: ParentKind): string {
    match kind
    case LocationParent => "LocationAttribute"
    case ProviderParent => "ProviderAttribute"
  }

  datatype ResourceError = UnsupportedOperation(message: string)

  const ResourceVersion := "1.9"

  /** A Location or a Provider: the owner of an ordered collection of attributes. */
  class Owner {
    var attributes: seq<Attribute>

    constructor ()
      ensures attributes == []
    {
      attributes := [];
    }

    /** Appends an attribute to the collection, as the host entity does. */
    method AddAttribute(a: Attribute)
      modifies this`attributes
      ensures attributes == old(attributes) + [a]
    {
      attributes := attributes + [a];
    }
  }

  /** An attribute instance: a typed value attached to one owner, voided rather than removed. */
  class Attribute {
    const uuid: string
    var attributeType: Option<Types.AttributeType>
    /** The value as it prints; None is the absent value. */
    var value: Option<string>
    var voided: bool
    var voidReason: Option<string>
    var owner: Owner?

    /** A fresh delegate, as the resource creates before a client's properties are set. */
    constructor (uuid: string)
      ensures this.uuid == uuid && attributeType == None && value == None
      ensures !voided && voidReason == None && owner == null
    {
      this.uuid := uuid;
      attributeType := None;
      value := None;
      voided := false;
      voidReason := None;
      owner := null;
    }
  }

  /**
   * The host's persistence service, reduced to the list of owners it was asked to save
   * (each save cascades to the owner's attributes).
   */
  class ParentService {
    var saved: seq<Owner>

    constructor ()
      ensures saved == []
    {
      saved := [];
    }

    method SaveParent(parent: Owner)
      modifies this
      ensures saved == old(saved) + [parent]
    {
      saved := saved + [parent];
    }
  }

  /** The equality the duplicate check uses: two attributes are equal when their uuids are. */
  predicate SameAttribute(a: Attribute, b: Attribute) {
    a.uuid == b.uuid
  }

  /** The owner's active attributes: the non-voided ones, in collection order. */
  function ActiveOf(attrs: seq<Attribute>): (active: seq<Attribute>)
    reads attrs
    ensures SubsequenceOf(active, attrs)
    ensures forall a :: a in active ==> a in attrs && !a.voided
    ensures forall a :: a in attrs && !a.voided ==> a in active
  {
    if attrs == [] then []
    else
      var rest := ActiveOf(attrs[1..]);
      if attrs[0].voided then rest else [attrs[0]] + rest
  }

  /** Appending an attribute appends it to the active view too, unless it is voided. */
  lemma {:induction false} ActiveOfSnoc(attrs: seq<Attribute>, a: Attribute)
    ensures ActiveOf(attrs + [a]) == ActiveOf(attrs) + (if a.voided then [] else [a])
    decreases |attrs|
  {
    var ext := attrs + [a];
    if attrs == [] {
      assert ext[1..] == [];
    } else {
      assert ext[0] == attrs[0] && ext[1..] == attrs[1..] + [a];
      ActiveOfSnoc(attrs[1..], a);
      var tail := if a.voided then [] else [a];
      if !attrs[0].voided {
        calc {
          ActiveOf(ext);
          [attrs[0]] + ActiveOf(attrs[1..] + [a]);
          [attrs[0]] + (ActiveOf(attrs[1..]) + tail);
          ([attrs[0]] + ActiveOf(attrs[1..])) + tail;
        }
      }
    }
  }

  /** The listing of a parent's attributes: exactly its non-voided ones, in order. */
  function DoGetAll(parent: Owner): (listed: seq<Attribute>)
    reads parent, parent.attributes
    ensures SubsequenceOf(listed, parent.attributes)
    ensures forall a :: a in listed ==> a in parent.attributes && !a.voided
    ensures forall a :: a in parent.attributes && !a.voided ==> a in listed
  {
    ActiveOf(parent.attributes)
  }

  function GetParent(instance: Attribute): Owner?
    reads instance
  {
    instance.owner
  }

  method SetParent(instance: Attribute, parent: Owner?)
    modifies instance`owner
    ensures GetParent(instance) == parent
  {
    instance.owner := parent;
  }

  /** Sets the attribute's type; the value and everything else stay as they were. */
  method SetAttributeType(instance: Attribute, attr: Option<Types.AttributeType>)
    modifies instance`attributeType
    ensures instance.attributeType == attr
    ensures instance.value == old(instance.value) && instance.owner == old(instance.owner)
    ensures attr.Some? ==> DisplayString(instance) == attr.value.name + " - " + ValueText(instance.value)
  {
    instance.attributeType := attr;
  }

  /** How a value prints inside a string: an absent value prints as "null". */
  function ValueText(v: Option<string>): string {
    match v
    case None => "null"
    case Some(s) => s
  }

  /** "<type name> - <value>", or the empty string when the attribute has no type. */
  function DisplayString(a: Attribute): (display: string)
    reads a
    ensures display == "" <==> a.attributeType.None?
    ensures a.attributeType.Some? ==>
              var name := a.attributeType.value.name;
              && |display| == |name| + 3 + |ValueText(a.value)|
              && display[..|name|] == name
              && display[|name|..|name| + 3] == " - "
              && display[|name| + 3..] == ValueText(a.value)
  {
    match a.attributeType
    case None => ""
    case Some(t) => t.name + " - " + ValueText(a.value)
  }

  /** Some active attribute of `attrs` is equal to `d`. */
  ghost predicate HasEqualActive(attrs: seq<Attribute>, d: Attribute)
    reads attrs
  {
    exists a :: a in ActiveOf(attrs) && SameAttribute(a, d)
  }

  /** The owner's collection after `d` is saved: unchanged if an equal attribute is active, else extended by `d`. */
  ghost function Attached(attrs: seq<Attribute>, d: Attribute): seq<Attribute>
    reads attrs
  {
    if HasEqualActive(attrs, d) then attrs else attrs + [d]
  }

  /** No two active attributes of the collection are equal. */
  ghost predicate ActiveUnique(attrs: seq<Attribute>)
    reads attrs
  {
    var active := ActiveOf(attrs);
    forall i, j :: 0 <= i < j < |active| ==> !SameAttribute(active[i], active[j])
  }

  /**
   * Attaches the delegate to its owner unless an equal attribute is already active there,
   * then saves the owner; the delegate is returned.
   */
  method Save(delegate: Attribute, service: ParentService) returns (saved: Attribute)
    requires delegate.owner != null
    modifies delegate.owner`attributes, service
    ensures saved == delegate
    ensures delegate.owner.attributes == old(Attached(delegate.owner.attributes, delegate))
    ensures old(HasEqualActive(delegate.owner.attributes, delegate)) ==>
              delegate.owner.attributes == old(delegate.owner.attributes)
    ensures !old(HasEqualActive(delegate.owner.attributes, delegate)) ==>
              delegate.owner.attributes == old(delegate.owner.attributes) + [delegate]
    ensures service.saved == old(service.saved) + [delegate.owner]
  {
    var parent := delegate.owner;
    var active := ActiveOf(parent.attributes);
    var needToAdd := true;
    var i := 0;
    while i < |active|
      invariant 0 <= i <= |active|
      invariant needToAdd
      invariant forall j :: 0 <= j < i ==> !SameAttribute(active[j], delegate)
    {
      if SameAttribute(active[i], delegate) {
        needToAdd := false;
        break;
      }
      i := i + 1;
    }
    if needToAdd {
      parent.AddAttribute(delegate);
    }
    service.SaveParent(parent);
    saved := delegate;
  }

  /** Saving a non-voided attribute a second time leaves the collection as the first save left it. */
  lemma AttachIdempotent(attrs: seq<Attribute>, d: Attribute)
    requires !d.voided
    ensures Attached(Attached(attrs, d), d) == Attached(attrs, d)
  {
    if !HasEqualActive(attrs, d) {
      assert d in ActiveOf(attrs + [d]);
    }
  }

  /** After a save, an attribute equal to a non-voided delegate is listed by the owner. */
  lemma AttachedIsListed(attrs: seq<Attribute>, d: Attribute)
    requires !d.voided
    ensures HasEqualActive(Attached(attrs, d), d)
  {
    if !HasEqualActive(attrs, d) {
      assert d in ActiveOf(attrs + [d]);
    }
  }

  /** Saving never makes two active attributes of the owner equal. */
  lemma AttachPreservesActiveUnique(attrs: seq<Attribute>, d: Attribute)
    requires ActiveUnique(attrs)
    ensures ActiveUnique(Attached(attrs, d))
  {
    if !HasEqualActive(attrs, d) {
      ActiveOfSnoc(attrs, d);
      var before := ActiveOf(attrs);
      var after := ActiveOf(attrs + [d]);
      forall i, j | 0 <= i < j < |after| ensures !SameAttribute(after[i], after[j]) {
        if j == |before| {
          assert after[i] == before[i] && after[j] == d;
          assert before[i] in ActiveOf(attrs);
        } else {
          assert after[i] == before[i] && after[j] == before[j];
        }
      }
    }
  }

  /** Voids the attribute with the given reason and saves its owner; nothing is removed. */
  method Delete(delegate: Attribute, reason: Option<string>, service: ParentService)
    requires delegate.owner != null
    modifies delegate`voided, delegate`voidReason, service
    ensures delegate.voided && delegate.voidReason == reason
    ensures delegate.attributeType == old(delegate.attributeType) && delegate.value == old(delegate.value)
    ensures delegate.owner == old(delegate.owner)
    ensures delegate.owner.attributes == old(delegate.owner.attributes)
    ensures forall a :: a in DoGetAll(delegate.owner) <==> a in old(DoGetAll(delegate.owner)) && a != delegate
    ensures service.saved == old(service.saved) + [delegate.owner]
  {
    delegate.voided := true;
    delegate.voidReason := reason;
    service.SaveParent(delegate.owner);
  }

  /** Purging an attribute is refused, whatever the attribute; nothing changes. */
  method Purge(kind: ParentKind, delegate: Attribute) returns (outcome: Outcome<ResourceError>)
    ensures outcome.Fail?
    ensures outcome.error.message == "Cannot purge " + EntityName(kind)
  {
    outcome := Fail(UnsupportedOperation("Cannot purge " + EntityName(kind)));
  }

  /** The display property, computed by the resource's getDisplayString. */
  const DisplayProperty := Property(Display, Computed("getDisplayString"), false)

  /** The attribute type, rendered in its reference representation. */
  const TypeProperty := Property(AttributeTypeRef, AsRef, false)

  /** The audit information, computed by the resource's getAuditInfo. */
  const AuditProperty := Property(AuditInfo, Computed("getAuditInfo"), false)

  /** The five properties both representations start with. */
  const LeadingProperties := [DisplayProperty, Prop(Uuid), Prop(Value), TypeProperty, Prop(Voided)]

  /** The default representation: the five properties, a link to itself and one to the full representation. */
  const DefaultDescription := Description(LeadingProperties, [SelfLink, FullLink])

  /** The full representation: the audit information as well, and only a link to itself. */
  const FullDescription := Description(LeadingProperties + [AuditProperty], [SelfLink])

  /** The properties and links rendered for each representation; none for any other. */
  function RepresentationDescription(rep: Representation): (d: Option<Description>)
    ensures d.Some? <==> rep.Default? || rep.Full?
    ensures d.Some? ==> DistinctFields(d.value) && SelfLink in d.value.links
    ensures d.Some? ==> DisplayProperty in d.value.properties && TypeProperty in d.value.properties
    ensures rep.Default? ==>
              d.value.links == [SelfLink, FullLink] && Fields(d.value) == {Display, Uuid, Value, AttributeTypeRef, Voided}
    ensures rep.Full? ==>
              d.value.links == [SelfLink] && Fields(d.value) == {Display, Uuid, Value, AttributeTypeRef, Voided, AuditInfo}
    ensures rep.Full? ==> AuditProperty in d.value.properties
  {
    LeadingFields();
    match rep
    case Default =>
      DefaultFieldsDistinct();
      assert LeadingProperties[0] == DisplayProperty && LeadingProperties[3] == TypeProperty;
      Some(DefaultDescription)
    case Full =>
      FullFieldsDistinct();
      FieldsWithConcat(LeadingProperties, [AuditProperty], {true, false});
      var full := FullDescription.properties;
      assert full[0] == DisplayProperty && full[3] == TypeProperty && full[5] == AuditProperty;
      Some(FullDescription)
    case _ => None
  }

  lemma LeadingFields()
    ensures FieldsWith(LeadingProperties, {true, false}) == {Display, Uuid, Value, AttributeTypeRef, Voided}
  {
    var both, props := {true, false}, LeadingProperties;
    assert FieldsWith(props[4..], both) == {Voided};
    assert FieldsWith(props[3..], both) == {AttributeTypeRef, Voided};
    assert FieldsWith(props[2..], both) == {Value, AttributeTypeRef, Voided};
    assert FieldsWith(props[1..], both) == {Uuid, Value, AttributeTypeRef, Voided};
  }

  lemma DefaultFieldsDistinct()
    ensures DistinctFields(DefaultDescription)
  {
  }

  lemma FullFieldsDistinct()
    ensures DistinctFields(FullDescription)
  {
  }

  /** What a client may send on create: the value and the attribute type, both required. */
  function CreatableProperties(): (d: Description)
    ensures RequiredFields(d) == {Value, AttributeTypeRef} && OptionalFields(d) == {}
  {
    Description([RequiredProp(Value), RequiredProp(AttributeTypeRef)], [])
  }

  /** What a client may send on update: exactly what it may send on create. */
  function UpdatableProperties(): (d: Description)
    ensures RequiredFields(d) == {Value, AttributeTypeRef} && OptionalFields(d) == {}
  {
    CreatableProperties()
  }
}
