/**
 * The REST resource for attribute types (location attribute types and provider attribute
 * types alike): the representations it renders, the properties a client may create or
 * update, and the search over the names of all attribute types.
 */
module AttributeTypeResource {
  import opened Wrappers
  import opened Sequences
  import opened Descriptions
  import AsciiMatch

  /** Attribute-type metadata; the two variants carry the same fields. */
  datatype AttributeType = AttributeType(
    uuid: string,
    name: string,
    description: Option<string>,
    minOccurs: int,
    maxOccurs: Option<int>,
    datatypeClassname: string,
    datatypeConfig: Option<string>,
    preferredHandlerClassname: Option<string>,
    handlerConfig: Option<string>,
    retired: bool)

  const ResourceVersion := "1.9"

  /** The seven properties both representations start with. */
  const LeadingProperties :=
    [Prop(Uuid), Property(Display, Computed("getDisplayString"), false), Prop(Name),
     Prop(DescriptionText), Prop(MinOccurs), Prop(MaxOccurs), Prop(DatatypeClassname)]

  /** The default representation: nine properties, a link to itself and one to the full representation. */
  const DefaultDescription := Description(LeadingProperties + DefaultTail, [SelfLink, FullLink])

  const DefaultTail := [Prop(PreferredHandlerClassname), Prop(Retired)]

  /** The full representation: the configuration strings and the audit information as well. */
  const FullDescription := Description(LeadingProperties + FullTail, [SelfLink])

  const FullTail :=
    [Prop(DatatypeConfig), Prop(PreferredHandlerClassname), Prop(HandlerConfig),
     Prop(Retired), Property(AuditInfo, Computed("getAuditInfo"), false)]

  /** The properties and links rendered for each representation; none for any other. */
  function RepresentationDescription(rep: Representation): (d: Option<Description>)
    ensures d.Some? <==> rep.Default? || rep.Full?
    ensures d.Some? ==> DistinctFields(d.value) && SelfLink in d.value.links
    ensures d.Some? ==> Property(Display, Computed("getDisplayString"), false) in d.value.properties
    ensures rep.Default? ==> |d.value.properties| == 9 && d.value.links == [SelfLink, FullLink]
    ensures rep.Default? ==>
              Fields(d.value) == {Uuid, Display, Name, DescriptionText, MinOccurs, MaxOccurs,
                                  DatatypeClassname, PreferredHandlerClassname, Retired}
    ensures rep.Full? ==> |d.value.properties| == 12 && d.value.links == [SelfLink]
    ensures rep.Full? ==>
              Fields(d.value) == {Uuid, Display, Name, DescriptionText, MinOccurs, MaxOccurs,
                                  DatatypeClassname, DatatypeConfig, PreferredHandlerClassname,
                                  HandlerConfig, Retired, AuditInfo}
    ensures rep.Full? ==> Property(AuditInfo, Computed("getAuditInfo"), false) in d.value.properties
  {
    DefaultFieldsDistinct();
    FullFieldsDistinct();
    DefaultFields();
    FullFields();
    match rep
    case Default => Some(DefaultDescription)
    case Full =>
      assert FullDescription.properties[11] == Property(AuditInfo, Computed("getAuditInfo"), false);
      Some(FullDescription)
    case _ => None
  }

  lemma DefaultFieldsDistinct()
    ensures DistinctFields(DefaultDescription)
  {
  }

  lemma FullFieldsDistinct()
    ensures DistinctFields(FullDescription)
  {
  }

  lemma LeadingFields()
    ensures FieldsWith(LeadingProperties, {true, false}) ==
              {Uuid, Display, Name, DescriptionText, MinOccurs, MaxOccurs, DatatypeClassname}
  {
  }

  lemma DefaultTailFields()
    ensures FieldsWith(DefaultTail, {true, false}) == {PreferredHandlerClassname, Retired}
  {
  }

  lemma FullTailFields()
    ensures FieldsWith(FullTail, {true, false}) ==
              {DatatypeConfig, PreferredHandlerClassname, HandlerConfig, Retired, AuditInfo}
  {
  }

  lemma DefaultFields()
    ensures Fields(DefaultDescription) ==
              {Uuid, Display, Name, DescriptionText, MinOccurs, MaxOccurs,
               DatatypeClassname, PreferredHandlerClassname, Retired}
  {
    FieldsWithConcat(LeadingProperties, DefaultTail, {true, false});
    LeadingFields();
    DefaultTailFields();
  }

  lemma FullFields()
    ensures Fields(FullDescription) ==
              {Uuid, Display, Name, DescriptionText, MinOccurs, MaxOccurs,
               DatatypeClassname, DatatypeConfig, PreferredHandlerClassname,
               HandlerConfig, Retired, AuditInfo}
  {
    FieldsWithConcat(LeadingProperties, FullTail, {true, false});
    LeadingFields();
    FullTailFields();
  }

  /** The full representation renders every default property and three more, and no link to itself as full. */
  lemma FullExtendsDefault()
    ensures Fields(FullDescription) == Fields(DefaultDescription) + {DatatypeConfig, HandlerConfig, AuditInfo}
    ensures FullLink in DefaultDescription.links && FullLink !in FullDescription.links
  {
    DefaultFields();
    FullFields();
  }

  /** The properties a client may send on create, in the order they are declared. */
  const CreatableDescription :=
    Description(
      [RequiredProp(Name), RequiredProp(DatatypeClassname), Prop(DescriptionText),
       Prop(MinOccurs), Prop(MaxOccurs), Prop(DatatypeConfig),
       Prop(PreferredHandlerClassname), Prop(HandlerConfig)],
      [])

  /** What a client may send on create: name and datatype class are required, six more are optional. */
  function CreatableProperties(): (d: Description)
    ensures DistinctFields(d) && d.links == []
    ensures RequiredFields(d) == {Name, DatatypeClassname}
    ensures OptionalFields(d) == {DescriptionText, MinOccurs, MaxOccurs, DatatypeConfig,
                                  PreferredHandlerClassname, HandlerConfig}
  {
    CreatableFieldsDistinct();
    CreatableRequiredFields();
    CreatableOptionalFields();
    CreatableDescription
  }

  lemma CreatableFieldsDistinct()
    ensures DistinctFields(CreatableDescription)
  {
  }

  lemma CreatableRequiredFields()
    ensures RequiredFields(CreatableDescription) == {Name, DatatypeClassname}
  {
  }

  lemma CreatableOptionalFields()
    ensures OptionalFields(CreatableDescription) ==
              {DescriptionText, MinOccurs, MaxOccurs, DatatypeConfig, PreferredHandlerClassname, HandlerConfig}
  {
  }

  /** What a client may send on update: exactly what it may send on create. */
  function UpdatableProperties(): (d: Description)
    ensures RequiredFields(d) == {Name, DatatypeClassname}
    ensures OptionalFields(d) ==
              {DescriptionText, MinOccurs, MaxOccurs, DatatypeConfig, PreferredHandlerClassname, HandlerConfig}
  {
    CreatableProperties()
  }

  /** The search condition: the query occurs literally in the type's name, ignoring ASCII case. */
  function NameMatches(t: AttributeType, query: string): (matches: bool)
    ensures matches <==> AsciiMatch.OccursIn(query, t.name)
  {
    AsciiMatch.Find(t.name, query)
  }

  /** The types a search keeps: those whose name contains the query, in their original order. */
  function SearchResult(all: seq<AttributeType>, query: string): (r: seq<AttributeType>)
    ensures SubsequenceOf(r, all)
    ensures forall t :: t in r <==> t in all && NameMatches(t, query)
  {
    if all == [] then []
    else
      var rest := SearchResult(all[1..], query);
      if NameMatches(all[0], query) then [all[0]] + rest else rest
  }

  /** Searching a list extended by one type extends the result by that type if it matches. */
  lemma {:induction false} SearchResultSnoc(all: seq<AttributeType>, t: AttributeType, query: string)
    ensures SearchResult(all + [t], query) ==
              SearchResult(all, query) + (if NameMatches(t, query) then [t] else [])
    decreases |all|
  {
    var ext := all + [t];
    if all == [] {
      assert ext[1..] == [];
    } else {
      assert ext[0] == all[0] && ext[1..] == all[1..] + [t];
      SearchResultSnoc(all[1..], t, query);
      var tail := if NameMatches(t, query) then [t] else [];
      if NameMatches(all[0], query) {
        calc {
          SearchResult(ext, query);
          [all[0]] + SearchResult(all[1..] + [t], query);
          [all[0]] + (SearchResult(all[1..], query) + tail);
          ([all[0]] + SearchResult(all[1..], query)) + tail;
        }
      }
    }
  }

  /**
   * Scans every attribute type and keeps those whose name contains the query; the host
   * service that lists all types is replaced by the parameter `all`.
   */
  method DoSearch(all: seq<AttributeType>, query: string) returns (queryResult: seq<AttributeType>)
    ensures queryResult == SearchResult(all, query)
  {
    queryResult := [];
    var i := 0;
    while i < |all|
      invariant 0 <= i <= |all|
      invariant queryResult == SearchResult(all[..i], query)
    {
      assert all[..i + 1] == all[..i] + [all[i]];
      SearchResultSnoc(all[..i], all[i], query);
      if NameMatches(all[i], query) {
        queryResult := queryResult + [all[i]];
      }
      i := i + 1;
    }
    assert all[..|all|] == all;
  }

  /** A search never returns more types than there are. */
  lemma SearchResultLength(all: seq<AttributeType>, query: string)
    ensures |SearchResult(all, query)| <= |all|
  {
    SubsequenceLength(SearchResult(all, query), all);
  }

  /** The empty query returns every type, in order. */
  lemma {:induction false} EmptyQueryReturnsAll(all: seq<AttributeType>)
    ensures SearchResult(all, "") == all
    decreases |all|
  {
    if all != [] {
      AsciiMatch.EmptyQueryFound(all[0].name);
      EmptyQueryReturnsAll(all[1..]);
      assert SearchResult(all, "") == [all[0]] + SearchResult(all[1..], "");
    }
  }

  /** Searching again with the same query changes nothing. */
  lemma {:induction false} SearchIdempotent(all: seq<AttributeType>, query: string)
    ensures SearchResult(SearchResult(all, query), query) == SearchResult(all, query)
    decreases |all|
  {
    if all != [] {
      SearchIdempotent(all[1..], query);
      if NameMatches(all[0], query) {
        var r := SearchResult(all, query);
        assert r[0] == all[0] && r[1..] == SearchResult(all[1..], query);
      }
    }
  }
}
