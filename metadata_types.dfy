/** The canonical course-metadata records, and the JSON that
    `JSON.stringify` writes for them (as `JSON.parse` reads it back). */
module MetadataTypes {
  import opened Js

  /** A trait. The declared type of `value` is `string | number`, but nothing
      checks it at run time, so any JSON value can stand there. */
  datatype Attribute = Attribute(traitType: string, value: Json)

  datatype Properties = Properties(
    category: string,
    courseType: string,
    accessibilityLevel: string,
    redeemable: bool,
    instructorCertified: bool,
    style: string)

  datatype CourseMetadata = CourseMetadata(
    name: string,
    description: string,
    image: string,
    attributes: seq<Attribute>,
    properties: Properties)

  /** The properties record when the payload has none. */
  const EmptyProperties: Properties := Properties("", "", "", false, false, "")

  function AttributeJson(a: Attribute): Json
  {
    JObject(map["trait_type" := JString(a.traitType), "value" := a.value])
  }

  function AttributesJson(attrs: seq<Attribute>): (j: Json)
    ensures j.JArray? && |j.items| == |attrs|
    ensures forall i :: 0 <= i < |attrs| ==> j.items[i] == AttributeJson(attrs[i])
  {
    JArray(seq(|attrs|, i requires 0 <= i < |attrs| => AttributeJson(attrs[i])))
  }

  function PropertiesJson(p: Properties): Json
  {
    JObject(map[
      "category" := JString(p.category),
      "course_type" := JString(p.courseType),
      "accessibility_level" := JString(p.accessibilityLevel),
      "redeemable" := JBool(p.redeemable),
      "instructor_certified" := JBool(p.instructorCertified),
      "style" := JString(p.style)])
  }

  function MetadataJson(m: CourseMetadata): Json
  {
    JObject(map[
      "name" := JString(m.name),
      "description" := JString(m.description),
      "image" := JString(m.image),
      "attributes" := AttributesJson(m.attributes),
      "properties" := PropertiesJson(m.properties)])
  }
}
