/** The description of one form field, built from the field's declarative
    annotation, its name and its declared type
    (`org.vaadin.miki.form.annotations.AnnotationFieldDefinition`). */
module FieldDefinitions {

  /** The annotation's "use the field name as identifier" marker. Its value is
      defined in `FormField`, which is not part of this model; the properties
      below hold whatever string it is. */
  const DefaultFieldIdentifier: string := "[field name]"

  /** The annotation's "use the capitalised field name as caption" marker
      (also defined in `FormField`). */
  const DefaultFieldCaption: string := "[field caption]"

  /** An opaque stand-in for the field's declared Java class. */
  datatype TypeTag = TypeTag(className: string)

  /** The per-field annotation: identifier, caption and auxiliary information. */
  datatype FormField<I> = FormField(identifier: string, caption: string, info: seq<I>)

  /** The immutable field definition. Its destructors are the five getters. */
  datatype FieldDefinition<I> = FieldDefinition(
    identifier: string,
    propertyId: string,
    valueType: TypeTag,
    fieldCaption: string,
    additionalInformation: seq<I>)

  predicate IsLower(c: char) {
    'a' <= c <= 'z'
  }

  /** Upper-casing of a single character, on the ASCII letters. */
  function ToUpper(c: char): (u: char)
    ensures IsLower(c) ==> u as int == c as int - 32
    ensures !IsLower(c) ==> u == c
    ensures !IsLower(u)
  {
    if IsLower(c) then (c as int - 32) as char else c
  }

  /** The field name with its first character upper-cased. */
  function Capitalize(name: string): (r: string)
    requires |name| >= 1
    ensures |r| == |name|
    ensures r[0] == ToUpper(name[0]) && !IsLower(r[0])
    ensures forall i :: 1 <= i < |name| ==> r[i] == name[i]
  {
    [ToUpper(name[0])] + name[1..]
  }

  /** Capitalising twice is capitalising once. */
  lemma CapitalizeIdempotent(name: string)
    requires |name| >= 1
    ensures Capitalize(Capitalize(name)) == Capitalize(name)
  {
    var c := Capitalize(name);
    assert c[1..] == name[1..];
  }

  /** The constructor. Java's `substring(0, 1)` fails on an empty name, so the
      name must be non-empty whenever the default caption is asked for. */
  function NewFieldDefinition<I>(annotation: FormField<I>, fieldName: string, valueType: TypeTag): (d: FieldDefinition<I>)
    requires annotation.caption == DefaultFieldCaption ==> |fieldName| >= 1
    ensures d.valueType == valueType
    ensures d.additionalInformation == annotation.info
    ensures d.propertyId == fieldName
    ensures annotation.identifier == DefaultFieldIdentifier ==> d.identifier == fieldName
    ensures annotation.identifier != DefaultFieldIdentifier ==> d.identifier == annotation.identifier
    ensures annotation.caption == DefaultFieldCaption ==>
      |d.fieldCaption| == |fieldName| && d.fieldCaption[0] == ToUpper(fieldName[0]) &&
      d.fieldCaption[1..] == fieldName[1..]
    ensures annotation.caption != DefaultFieldCaption ==> d.fieldCaption == annotation.caption
  {
    var identifier := if annotation.identifier == DefaultFieldIdentifier then fieldName else annotation.identifier;
    var caption := if annotation.caption == DefaultFieldCaption then Capitalize(fieldName) else annotation.caption;
    FieldDefinition(identifier, fieldName, valueType, caption, annotation.info)
  }

  /** Spelling the defaults out in the annotation gives the same definition as
      using the two markers. */
  lemma ExplicitDefaultsAgree<I>(fieldName: string, info: seq<I>, valueType: TypeTag)
    requires |fieldName| >= 1
    ensures NewFieldDefinition(FormField(fieldName, Capitalize(fieldName), info), fieldName, valueType)
         == NewFieldDefinition(FormField(DefaultFieldIdentifier, DefaultFieldCaption, info), fieldName, valueType)
  {
  }

  /** The identifier is the marker only when the field itself has that name:
      the marker never leaks into a definition. */
  lemma IdentifierIsNeverTheMarker<I>(annotation: FormField<I>, fieldName: string, valueType: TypeTag)
    requires annotation.caption == DefaultFieldCaption ==> |fieldName| >= 1
    requires fieldName != DefaultFieldIdentifier
    ensures NewFieldDefinition(annotation, fieldName, valueType).identifier != DefaultFieldIdentifier
  {
  }
}
