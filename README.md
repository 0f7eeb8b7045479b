# OpenMRS REST 1.9 extension: attribute and attribute-type resources

This project models the four REST resources of the OpenMRS `rest19ext` web-services module
that expose custom attributes. The two sub-resources, `LocationAttributeResource` and
`ProviderAttributeResource`, serve the attributes nested under a Location or a Provider.
The two top-level resources, `LocationAttributeTypeResource` and `ProviderAttributeTypeResource`,
serve the attribute types.

The Location and Provider variants of each resource are the same code with different entity
names. Each pair is therefore modelled once:

- `AttributeResource` models the attribute sub-resource. `ParentKind` selects the variant where
  the behaviour differs, which is only the message of the refused purge.
- `AttributeTypeResource` models the attribute-type resource.

The modules:

- `AttributeResource` holds the attribute sub-resource:
  - the `Owner` class stands for a Location or a Provider and keeps an ordered collection of attributes;
  - the `Attribute` class is a typed value that is voided rather than removed;
  - `ParentService` records which owners were saved;
  - the operations: `Save` (a duplicate check followed by an append), the soft `Delete`, the refused
    `Purge`, the display string, the listing of active attributes, the parent accessors, the
    attribute-type setter, and the representation and creatable/updatable descriptions.
- `AttributeTypeResource` holds:
  - the attribute-type record;
  - its representation and creatable/updatable descriptions;
  - the name search `DoSearch`, specified by the function `SearchResult`.
- `AsciiMatch` holds the matcher the search uses. A quoted pattern compiled with `CASE_INSENSITIVE`
  and without `UNICODE_CASE` is a literal substring search in which only US-ASCII letters fold.
  The matcher is `Find`, proved equal to the reference predicate `OccursIn`.
- `Descriptions` is the vocabulary of resource descriptions: properties, their rendering mode and
  required flag, and links.
- `Sequences` defines order-preserving subsequences.
- `Wrappers` holds `Option` and `Outcome`.

Calls into the OpenMRS core are stated as assumptions:

- Two attributes are equal when their uuids are equal, as `BaseOpenmrsObject.equals` decides.
- `getActiveAttributes` returns the non-voided attributes in collection order (`ActiveOf`).
- `addAttribute` appends to the collection (`Owner.AddAttribute`).
- `saveLocation` / `saveProvider` become `ParentService.SaveParent`, which records the owner.

## Model

| member | source | states |
|---|---|---|
| AttributeResource.Save | omod/src/main/java/org/openmrs/module/webservices/rest19ext/web/v1_0/resource/LocationAttributeResource.java:159-173 | The delegate is returned and its owner is saved in every case. The owner's collection is unchanged when an equal active attribute already exists; otherwise it is extended by exactly the delegate. |
| AttributeResource.AttachIdempotent | omod/src/main/java/org/openmrs/module/webservices/rest19ext/web/v1_0/resource/ProviderAttributeResource.java:159-173 | Saving a non-voided attribute a second time leaves the collection exactly as the first save left it. |
| AttributeResource.AttachedIsListed | omod/src/main/java/org/openmrs/module/webservices/rest19ext/web/v1_0/resource/LocationAttributeResource.java:168-170 | After a non-voided attribute is saved, an attribute equal to it is among the owner's active attributes. |
| AttributeResource.AttachPreservesActiveUnique | omod/src/main/java/org/openmrs/module/webservices/rest19ext/web/v1_0/resource/LocationAttributeResource.java:160-170 | If no two active attributes of the owner were equal before a save, none are after it. |
| AttributeResource.ActiveOf | omod/src/main/java/org/openmrs/module/webservices/rest19ext/web/v1_0/resource/LocationAttributeResource.java:162 | The active attributes are an order-preserving subsequence of the collection. An attribute is active iff it is in the collection and not voided. |
| AttributeResource.ActiveOfSnoc | omod/src/main/java/org/openmrs/module/webservices/rest19ext/web/v1_0/resource/ProviderAttributeResource.java:162-169 | Appending an attribute appends it to the active attributes too, unless it is voided. Together with `ActiveOf([]) == []`, this fixes the filter exactly, duplicates and order included. |
| AttributeResource.DoGetAll | omod/src/main/java/org/openmrs/module/webservices/rest19ext/web/v1_0/resource/LocationAttributeResource.java:151-153 | The listing is the parent's collection with the voided attributes removed, in order. It contains every non-voided attribute and only those. |
| AttributeResource.Delete | omod/src/main/java/org/openmrs/module/webservices/rest19ext/web/v1_0/resource/LocationAttributeResource.java:180-184 | The attribute is voided with the given reason; its type, value and owner are unchanged and the owner's collection is unchanged (nothing is removed). The listing afterwards is the earlier listing without the deleted attribute. The owner is saved. |
| AttributeResource.Purge | omod/src/main/java/org/openmrs/module/webservices/rest19ext/web/v1_0/resource/LocationAttributeResource.java:191-193 | Purging always fails, with the message "Cannot purge LocationAttribute" or "Cannot purge ProviderAttribute". |
| AttributeResource.DisplayString | omod/src/main/java/org/openmrs/module/webservices/rest19ext/web/v1_0/resource/LocationAttributeResource.java:201-205 | The result is empty iff the attribute has no type. Otherwise it is the type name, then " - ", then the value's text, where an absent value prints as "null". |
| AttributeResource.SetAttributeType | omod/src/main/java/org/openmrs/module/webservices/rest19ext/web/v1_0/resource/ProviderAttributeResource.java:49-52 | The type becomes the given one and the value and owner are unchanged. With a type set, the display string is that type's name, " - " and the value. |
| AttributeResource.SetParent | omod/src/main/java/org/openmrs/module/webservices/rest19ext/web/v1_0/resource/LocationAttributeResource.java:117-136 | After the parent is set, `GetParent` returns it (round trip of the two accessors). |
| AttributeResource.Attribute.constructor | omod/src/main/java/org/openmrs/module/webservices/rest19ext/web/v1_0/resource/LocationAttributeResource.java:125-127 | A new delegate has no type, no value and no owner, and is not voided. |
| AttributeResource.RepresentationDescription | omod/src/main/java/org/openmrs/module/webservices/rest19ext/web/v1_0/resource/LocationAttributeResource.java:72-95 | Only the default and full representations have a description; any other yields none. Neither declares a property twice, and both render display computed by `getDisplayString` and attributeType in its reference representation. Default renders exactly display, uuid, value, attributeType and voided, with a self link and a link to full. Full renders the same fields plus auditInfo computed by `getAuditInfo`, with only a self link. |
| AttributeResource.CreatableProperties | omod/src/main/java/org/openmrs/module/webservices/rest19ext/web/v1_0/resource/LocationAttributeResource.java:98-103 | On create, value and attributeType are required and nothing is optional. |
| AttributeResource.UpdatableProperties | omod/src/main/java/org/openmrs/module/webservices/rest19ext/web/v1_0/resource/ProviderAttributeResource.java:108-111 | On update, the same fields as on create are accepted: value and attributeType, both required. |
| AttributeTypeResource.RepresentationDescription | omod/src/main/java/org/openmrs/module/webservices/rest19ext/web/v1_0/resource/LocationAttributeTypeResource.java:51-84 | Only default and full have a description; neither declares a property twice, and both render display computed by `getDisplayString`. Default has exactly nine properties: uuid, display, name, description, minOccurs, maxOccurs, datatypeClassname, preferredHandlerClassname and retired, with a self link and a link to full. Full has exactly twelve: those nine plus datatypeConfig, handlerConfig and auditInfo (computed by `getAuditInfo`), with only a self link. |
| AttributeTypeResource.FullExtendsDefault | omod/src/main/java/org/openmrs/module/webservices/rest19ext/web/v1_0/resource/ProviderAttributeTypeResource.java:51-84 | The full representation's fields are the default's plus exactly datatypeConfig, handlerConfig and auditInfo. Only default links to full. |
| AttributeTypeResource.CreatableProperties | omod/src/main/java/org/openmrs/module/webservices/rest19ext/web/v1_0/resource/LocationAttributeTypeResource.java:91-102 | On create, name and datatypeClassname are required. Description, minOccurs, maxOccurs, datatypeConfig, preferredHandlerClassname and handlerConfig are optional. No field is declared twice. |
| AttributeTypeResource.UpdatableProperties | omod/src/main/java/org/openmrs/module/webservices/rest19ext/web/v1_0/resource/ProviderAttributeTypeResource.java:109-111 | On update, the same required and optional fields as on create are accepted. |
| AttributeTypeResource.NameMatches | omod/src/main/java/org/openmrs/module/webservices/rest19ext/web/v1_0/resource/LocationAttributeTypeResource.java:170 | A type matches iff the query occurs in its name, ignoring US-ASCII case. |
| AttributeTypeResource.SearchResult | omod/src/main/java/org/openmrs/module/webservices/rest19ext/web/v1_0/resource/LocationAttributeTypeResource.java:167-173 | The result is an order-preserving subsequence of all types. A type is in the result iff it is among all types and its name contains the query. |
| AttributeTypeResource.SearchResultSnoc | omod/src/main/java/org/openmrs/module/webservices/rest19ext/web/v1_0/resource/ProviderAttributeTypeResource.java:169-173 | Searching a list extended by one type extends the result by that type exactly when it matches. This fixes the result exactly, duplicates and order included. |
| AttributeTypeResource.DoSearch | omod/src/main/java/org/openmrs/module/webservices/rest19ext/web/v1_0/resource/LocationAttributeTypeResource.java:165-175 | The loop over all types returns exactly `SearchResult`: the matching types in their original order. |
| AttributeTypeResource.SearchResultLength | omod/src/main/java/org/openmrs/module/webservices/rest19ext/web/v1_0/resource/ProviderAttributeTypeResource.java:168-173 | A search never returns more types than there are. |
| AttributeTypeResource.EmptyQueryReturnsAll | omod/src/main/java/org/openmrs/module/webservices/rest19ext/web/v1_0/resource/ProviderAttributeTypeResource.java:170 | The empty query returns every type, in order. |
| AttributeTypeResource.SearchIdempotent | omod/src/main/java/org/openmrs/module/webservices/rest19ext/web/v1_0/resource/LocationAttributeTypeResource.java:169-173 | Searching a search result again with the same query returns it unchanged. |
| AsciiMatch.ToLowerAscii | omod/src/main/java/org/openmrs/module/webservices/rest19ext/web/v1_0/resource/LocationAttributeTypeResource.java:170 | Only A-Z change, each to its lower-case letter; the result is never an upper-case ASCII letter. |
| AsciiMatch.StartsWithIgnoringCase | omod/src/main/java/org/openmrs/module/webservices/rest19ext/web/v1_0/resource/LocationAttributeTypeResource.java:170 | True iff the query fits in the text and matches its first characters up to ASCII case. |
| AsciiMatch.Find | omod/src/main/java/org/openmrs/module/webservices/rest19ext/web/v1_0/resource/LocationAttributeTypeResource.java:170 | The left-to-right matcher finds the query iff it occurs at some position of the text (reference predicate `OccursIn`), ignoring ASCII case. |
| AsciiMatch.OccursInFirstOrRest | omod/src/main/java/org/openmrs/module/webservices/rest19ext/web/v1_0/resource/ProviderAttributeTypeResource.java:170 | An occurrence in a non-empty text is at its first position or in the text after it. |
| AsciiMatch.EmptyQueryFound | omod/src/main/java/org/openmrs/module/webservices/rest19ext/web/v1_0/resource/ProviderAttributeTypeResource.java:170 | The empty query is found in every name. |
| AsciiMatch.LongQueryNotFound | omod/src/main/java/org/openmrs/module/webservices/rest19ext/web/v1_0/resource/ProviderAttributeTypeResource.java:170 | A query longer than the name is never found. |
| AsciiMatch.SameIgnoringCaseNonLetter | omod/src/main/java/org/openmrs/module/webservices/rest19ext/web/v1_0/resource/ProviderAttributeTypeResource.java:170 | A character that is not an ASCII letter matches only itself. |
| AsciiMatch.NonLetterQueryIsVerbatim | omod/src/main/java/org/openmrs/module/webservices/rest19ext/web/v1_0/resource/LocationAttributeTypeResource.java:170 | A query without ASCII letters is found iff it occurs verbatim, so regular-expression metacharacters are literal. |
| AsciiMatch.LowerAscii | omod/src/main/java/org/openmrs/module/webservices/rest19ext/web/v1_0/resource/LocationAttributeTypeResource.java:170 | The lower-cased string has the same length and equals the original up to ASCII case, in both directions; it contains no upper-case ASCII letter. |
| AsciiMatch.LowerAsciiIdempotent | omod/src/main/java/org/openmrs/module/webservices/rest19ext/web/v1_0/resource/LocationAttributeTypeResource.java:170 | Lower-casing a second time changes nothing. |
| AsciiMatch.QueryCaseIrrelevant | omod/src/main/java/org/openmrs/module/webservices/rest19ext/web/v1_0/resource/LocationAttributeTypeResource.java:170 | Lower-casing the query's ASCII letters does not change what is found. |

## Left out

- `setValue` (LocationAttributeResource.java:60-66 and the Provider twin) is left out. It converts the client's string through a datatype class loaded by reflection. In the model the value is an already converted string, or absent.
- The type resource's `getByUniqueId`, `doGetAll`, `save`, `purge` and `newDelegate` are left out. They are one-line delegations to the OpenMRS service and contain no logic of their own. `DoSearch` takes the list of all types as a parameter.
- The attribute resource's `getByUniqueId` is left out: it is a service lookup.
- Paging (`NeedsPaging`), `RequestContext`, the link URLs, the registration annotations and the
  display string of an attribute type are left out. They belong to the host framework. `getResourceVersion` is the constant `ResourceVersion`.
- Persistence is left out: `ParentService` only records which owners were saved.
- In the OpenMRS core, an owner's attributes are a `LinkedHashSet`. The model uses an ordered sequence, and `addAttribute` is an append.
- Two attributes are equal when their uuids are equal. Persisted identity and Hibernate proxies are not modelled.
- AttributeResource.Save: requires the delegate to have an owner. The code dereferences the owner without a check, so a delegate without one fails with a null-pointer error, which is not modelled.
- AttributeResource.Delete: requires the delegate to have an owner. The code sets the voided flag and the reason first and only then passes the owner to the service's save, which fails when there is no owner; that failure is not modelled.
- AttributeResource.Save: with the collection as a sequence, saving a voided delegate appends it even when it is already in the collection: an owner holding `[d]` with `d` voided holds `[d, d]` after `Save(d)`. The core's set-based collection would keep one copy.
- AttributeResource.AttachIdempotent: requires a non-voided delegate. A voided delegate is never among the active attributes, so each save appends it again to the sequence model. With the core's set-based collection, the second append would be absorbed.
- AttributeTypeResource.DoSearch: a type whose name is null would make the matcher throw. Names are modelled as strings that are always present.
- Java strings are UTF-16 code units; the model's characters are Unicode scalar values.
- Concurrent requests are not modelled.
