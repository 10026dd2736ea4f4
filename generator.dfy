/** The course-metadata generator: one metadata record and one file name
    per course of a fixed table of twenty courses, and the per-style and
    per-level course counts. */
module Generator {
  import opened Wrappers
  import opened Js
  import opened MetadataTypes
  import NftMetadataService
  import IpfsUtils
  import IpfsService

  /** Integers JavaScript represents exactly (at most 2^53 - 1); `String`
      and template literals write them in plain decimal. */
  type SafeNat = n: nat | n <= 9007199254740991

  datatype YogaCourse = YogaCourse(
    id: SafeNat,
    name: string,
    style: string,
    level: string,
    lessons: SafeNat,
    duration: string,
    accessibility: string,
    focus: string,
    difficulty: SafeNat,
    description: string)

  /** The generator's record: the course metadata plus `external_url`. */
  datatype GeneratedMetadata = GeneratedMetadata(
    name: string,
    description: string,
    image: string,
    externalUrl: string,
    attributes: seq<Attribute>,
    properties: Properties)

  const Courses: seq<YogaCourse> := [
      YogaCourse(1, "Hatha Base", "Hatha", "Beginner", 8, "45 minutes", "Full", "Postures and Breathing", 2,
        "Introductory course to the fundamental postures of Hatha Yoga with adaptations for various physical needs."),
      YogaCourse(2, "Vinyasa Flow Beginners", "Vinyasa", "Beginner", 10, "50 minutes", "Full", "Fluid Sequences", 3,
        "Introduction to Vinyasa Flow with gentle sequences and modifications for different mobility levels."),
      YogaCourse(3, "Seated Gentle Yoga", "Gentle", "Adapted", 6, "30 minutes", "Wheelchair", "Upper Mobility", 1,
        "Yoga sequences specifically designed for wheelchair users, focusing on chest and arms."),
      YogaCourse(4, "Prenatal Yoga First Trimester", "Prenatal", "Specialized", 12, "40 minutes", "Pregnancy", "Maternal Wellness", 2,
        "Safe yoga practice for the first trimester of pregnancy with modified postures and relaxation techniques."),
      YogaCourse(5, "Modified Primary Ashtanga", "Ashtanga", "Intermediate", 15, "60 minutes", "Partial", "Traditional Series", 4,
        "Primary Ashtanga series with modifications for physical limitations, preserving the essence of the practice."),
      YogaCourse(6, "Meditative Yin Yoga", "Yin", "All Levels", 8, "75 minutes", "Full", "Deep Relaxation", 1,
        "Passive postures held for extended periods for deep relaxation, adaptable to all physical conditions."),
      YogaCourse(7, "Yoga with Prosthetics", "Adaptive", "Specialized", 10, "45 minutes", "Prosthetics", "Postural Adaptation", 3,
        "Specific sequences for prosthesis users, focusing on balance and posture adaptation."),
      YogaCourse(8, "Inclusive Power Yoga", "Power", "Advanced", 12, "55 minutes", "Partial", "Strength and Endurance", 5,
        "Dynamic and intense yoga with variations for different physical ability levels."),
      YogaCourse(9, "Therapeutic Laughter Yoga", "Laughter", "All Levels", 6, "35 minutes", "Full", "Emotional Well-being", 1,
        "Combination of laughter and yoga to improve mood and reduce stress, accessible to all."),
      YogaCourse(10, "Modified Bikram Hot Yoga", "Bikram", "Intermediate", 14, "90 minutes", "Partial", "Fixed Series", 4,
        "26 Bikram postures with physical limitation adaptations, practiced in a virtual heated environment."),
      YogaCourse(11, "Therapeutic Restorative Yoga", "Restorative", "Therapeutic", 8, "60 minutes", "Full", "Recovery and Healing", 1,
        "Restorative yoga for injury recovery or those seeking a very gentle approach."),
      YogaCourse(12, "Vinyasa Intermediate Plus", "Vinyasa", "Intermediate", 12, "60 minutes", "Partial", "Advanced Transitions", 4,
        "Intermediate Vinyasa Flow with complex transitions and variations for various abilities."),
      YogaCourse(13, "Guided Yoga Nidra", "Nidra", "All Levels", 5, "45 minutes", "Full", "Conscious Relaxation", 1,
        "Deep guided relaxation practice, suitable for anyone in any position."),
      YogaCourse(14, "Kundalini Vital Energy", "Kundalini", "Intermediate", 10, "50 minutes", "Partial", "Energy and Mantras", 3,
        "Awakening of Kundalini energy through movement, breathing and mantras, with modifications."),
      YogaCourse(15, "Yoga for Active Seniors", "Senior", "Specialized", 8, "40 minutes", "Senior", "Mobility and Balance", 2,
        "Yoga for over-65s focusing on balance, joint mobility and fall prevention."),
      YogaCourse(16, "Iyengar Precision", "Iyengar", "Intermediate", 12, "75 minutes", "Props Required", "Perfect Alignment", 4,
        "Iyengar yoga focused on precise alignment, using props to support every body."),
      YogaCourse(17, "Postpartum Recovery Yoga", "Postnatal", "Specialized", 10, "45 minutes", "Post-Pregnancy", "Muscle Recovery", 2,
        "Sequences for postpartum recovery, core strengthening and stress relief."),
      YogaCourse(18, "Dynamic Rocket Yoga", "Rocket", "Advanced", 14, "75 minutes", "Limited", "Intense Sequences", 5,
        "Dynamic and acrobatic yoga with adaptations for those seeking intensity despite limitations."),
      YogaCourse(19, "Integrated Sensory Yoga", "Sensory", "Specialized", 8, "50 minutes", "Blind/Visually Impaired", "Proprioception", 3,
        "Yoga for blind and visually impaired practitioners, focusing on proprioception and spatial awareness."),
      YogaCourse(20, "Adaptive Aerial Yoga", "Aerial", "Intermediate", 10, "60 minutes", "Aerial Support", "Assisted Suspension", 4,
        "Modified aerial yoga using the hammock as therapeutic support for all abilities.")
    ]

  const ImageBase: string := "https://ipfs.io/ipfs/QmYourImageHash"
  const ExternalBase: string := "https://yoyo-app.com/nft/course/"
  const DescriptionOpening: string := "NFT granting access to the "
  const DescriptionCourse: string := " inclusive yoga course by YoYo. Includes "
  const DescriptionLessons: string := " customizable lessons for various mobility needs. "

  /** `s.padStart(width, fill)` for a one-character fill. */
  function PadStart(s: string, width: nat, fill: char): (r: string)
    ensures |r| == if |s| >= width then |s| else width
    ensures |s| <= |r| && r[|r| - |s|..] == s
    ensures forall i :: 0 <= i < |r| - |s| ==> r[i] == fill
  {
    if |s| >= width then s else [fill] + PadStart(s, width - 1, fill)
  }

  /** `String(id).padStart(3, '0')` */
  function PadId(id: SafeNat): string
  {
    PadStart(Decimal(id), 3, '0')
  }

  /** `s` without its leading whitespace. */
  function DropWhitespace(s: string): (r: string)
    ensures |r| <= |s| && r == s[|s| - |r|..]
    ensures r == [] || !IsWhitespace(r[0])
    ensures forall i :: 0 <= i < |s| - |r| ==> IsWhitespace(s[i])
  {
    if s != [] && IsWhitespace(s[0]) then DropWhitespace(s[1..]) else s
  }

  /** `s.replace(/\s+/g, '_')`: every run of whitespace becomes one '_'. */
  function UnderscoreWhitespace(s: string): string
    decreases |s|
  {
    if s == [] then []
    else if IsWhitespace(s[0]) then "_" + UnderscoreWhitespace(DropWhitespace(s[1..]))
    else [s[0]] + UnderscoreWhitespace(s[1..])
  }

  /** `s.toLowerCase().replace(/\s+/g, '_')` */
  function Slug(s: string): string
  {
    UnderscoreWhitespace(Lower(s))
  }

  /** The eight traits of a course, in the generator's order. */
  function Traits(course: YogaCourse): seq<Attribute>
  {
    [ Attribute("Yoga Style", JString(course.style)),
      Attribute("Level", JString(course.level)),
      Attribute("Number of Lessons", JNumber(course.lessons as real)),
      Attribute("Lesson Duration", JString(course.duration)),
      Attribute("Accessibility", JString(course.accessibility)),
      Attribute("Main Focus", JString(course.focus)),
      Attribute("Difficulty", JNumber(course.difficulty as real)),
      Attribute("Category", JString("Course")) ]
  }

  function CourseProperties(course: YogaCourse): Properties
  {
    Properties("course", Slug(course.name), Slug(course.accessibility), true, true, Lower(course.style))
  }

  /** `generateNFTMetadata(course)` */
  function GenerateNFTMetadata(course: YogaCourse): GeneratedMetadata
  {
    var pad := PadId(course.id);
    GeneratedMetadata(
      "YoYo Course " + course.name + " #" + pad,
      DescriptionOpening + course.name + DescriptionCourse
        + Decimal(course.lessons) + DescriptionLessons + course.description,
      ImageBase + pad,
      ExternalBase + pad,
      Traits(course),
      CourseProperties(course))
  }

  /** The name of the file the record is written to. */
  function FileName(course: YogaCourse): string
  {
    PadId(course.id) + ".json"
  }

  /** The record as `JSON.stringify` writes it and `JSON.parse` reads it. */
  function GeneratedJson(m: GeneratedMetadata): Json
  {
    JObject(map[
      "name" := JString(m.name),
      "description" := JString(m.description),
      "image" := JString(m.image),
      "external_url" := JString(m.externalUrl),
      "attributes" := AttributesJson(m.attributes),
      "properties" := PropertiesJson(m.properties)])
  }

  /** The record without `external_url`. */
  function AsCourseMetadata(m: GeneratedMetadata): CourseMetadata
  {
    CourseMetadata(m.name, m.description, m.image, m.attributes, m.properties)
  }

  // ---------------------------------------------------------------- ids

  /** The longest run of digits at the end of `s`. */
  function TrailingDigits(s: string): (r: string)
    ensures AllDigits(r) && |r| <= |s| && r == s[|s| - |r|..]
    ensures |r| < |s| ==> !IsDigit(s[|s| - |r| - 1])
  {
    if s != [] && IsDigit(s[|s| - 1]) then TrailingDigits(s[..|s| - 1]) + [s[|s| - 1]] else []
  }

  lemma {:induction false} TrailingDigitsOfJoin(a: string, d: string)
    requires AllDigits(d) && (a == [] || !IsDigit(a[|a| - 1]))
    ensures TrailingDigits(a + d) == d
    decreases |d|
  {
    if d == [] {
      assert a + d == a;
    } else {
      var s := a + d;
      var init := d[..|d| - 1];
      var last := d[|d| - 1];
      assert s[|s| - 1] == last && IsDigit(last);
      assert s[..|s| - 1] == a + init;
      assert AllDigits(init);
      TrailingDigitsOfJoin(a, init);
      assert TrailingDigits(s) == TrailingDigits(a + init) + [last];
      assert d == init + [last];
    }
  }

  lemma {:induction false} ParseDecimalLeadingZero(d: string)
    requires AllDigits(d)
    ensures ParseDecimal("0" + d) == ParseDecimal(d)
    decreases |d|
  {
    if d != [] {
      var s := "0" + d;
      assert s[..|s| - 1] == "0" + d[..|d| - 1];
      ParseDecimalLeadingZero(d[..|d| - 1]);
    }
  }

  function Zeros(k: nat): (r: string)
    ensures |r| == k && forall i :: 0 <= i < k ==> r[i] == '0'
  {
    seq(k, i => '0')
  }

  lemma {:induction false} ParseDecimalOfZeros(k: nat, s: string)
    requires AllDigits(s)
    ensures AllDigits(Zeros(k) + s) && ParseDecimal(Zeros(k) + s) == ParseDecimal(s)
    decreases k
  {
    if k > 0 {
      var shorter := Zeros(k - 1) + s;
      ParseDecimalOfZeros(k - 1, s);
      assert Zeros(k) + s == "0" + shorter;
      ParseDecimalLeadingZero(shorter);
    } else {
      assert Zeros(k) + s == s;
    }
  }

  /** Padding with zeros keeps the digits' value. */
  lemma ParseDecimalOfPadded(s: string, width: nat)
    requires AllDigits(s)
    ensures AllDigits(PadStart(s, width, '0')) && ParseDecimal(PadStart(s, width, '0')) == ParseDecimal(s)
  {
    var p := PadStart(s, width, '0');
    var k := |p| - |s|;
    assert p == Zeros(k) + s;
    ParseDecimalOfZeros(k, s);
  }

  /** The padded id has at least three digits and reads back as the id. */
  lemma PadIdReadsBack(id: SafeNat)
    ensures |PadId(id)| >= 3 && AllDigits(PadId(id)) && ParseDecimal(PadId(id)) == id
  {
    ParseDecimalOfDecimal(id);
    ParseDecimalOfPadded(Decimal(id), 3);
  }

  lemma PadIdInjective(a: SafeNat, b: SafeNat)
    requires PadId(a) == PadId(b)
    ensures a == b
  {
    PadIdReadsBack(a);
    PadIdReadsBack(b);
  }

  lemma NameEndsWithId(course: YogaCourse)
    ensures TrailingDigits(GenerateNFTMetadata(course).name) == PadId(course.id)
  {
    PadIdReadsBack(course.id);
    var namePrefix := "YoYo Course " + course.name + " #";
    TrailingDigitsOfJoin(namePrefix, PadId(course.id));
  }

  lemma BasesEndInLetterOrSlash()
    ensures |ImageBase| > 0 && !IsDigit(ImageBase[|ImageBase| - 1])
    ensures |ExternalBase| > 0 && !IsDigit(ExternalBase[|ExternalBase| - 1])
  {
  }

  lemma UrlsEndWithId(course: YogaCourse)
    ensures TrailingDigits(GenerateNFTMetadata(course).image) == PadId(course.id)
    ensures TrailingDigits(GenerateNFTMetadata(course).externalUrl) == PadId(course.id)
  {
    var pad := PadId(course.id);
    PadIdReadsBack(course.id);
    BasesEndInLetterOrSlash();
    TrailingDigitsOfJoin(ImageBase, pad);
    TrailingDigitsOfJoin(ExternalBase, pad);
  }

  lemma FileNameEndsWithId(course: YogaCourse)
    ensures |FileName(course)| >= 5
    ensures TrailingDigits(FileName(course)[..|FileName(course)| - 5]) == PadId(course.id)
  {
    var pad := PadId(course.id);
    PadIdReadsBack(course.id);
    var file := FileName(course);
    assert file[..|file| - 5] == [] + pad;
    TrailingDigitsOfJoin([], pad);
  }

  /** The name, the image, the external URL and the file name all end with
      the same padded id, which reads back as the course id. */
  lemma GeneratedIdsAgree(course: YogaCourse)
    ensures var m := GenerateNFTMetadata(course);
            var file := FileName(course);
            && TrailingDigits(m.name) == PadId(course.id)
            && TrailingDigits(m.image) == PadId(course.id)
            && TrailingDigits(m.externalUrl) == PadId(course.id)
            && |file| >= 5 && TrailingDigits(file[..|file| - 5]) == PadId(course.id)
            && ParseDecimal(PadId(course.id)) == course.id
  {
    PadIdReadsBack(course.id);
    NameEndsWithId(course);
    UrlsEndWithId(course);
    FileNameEndsWithId(course);
  }

  /** Ids that differ give file names that differ. */
  lemma FileNameInjective(a: YogaCourse, b: YogaCourse)
    requires a.id != b.id
    ensures FileName(a) != FileName(b)
  {
    var fa, fb := FileName(a), FileName(b);
    if fa == fb {
      assert fa[..|fa| - 5] == PadId(a.id);
      assert fb[..|fb| - 5] == PadId(b.id);
      PadIdInjective(a.id, b.id);
    }
  }

  // ---------------------------------------------------------------- validation

  /** Validation reads only the five members it names. */
  lemma ValidateReadsFiveMembers(a: Json, b: Json, stringOf: Json -> string)
    requires a.JObject? && b.JObject?
    requires a.Member("name") == b.Member("name") && a.Member("description") == b.Member("description")
    requires a.Member("image") == b.Member("image") && a.Member("attributes") == b.Member("attributes")
    requires a.Member("properties") == b.Member("properties")
    ensures NftMetadataService.ValidateMetadata(a, stringOf) == NftMetadataService.ValidateMetadata(b, stringOf)
  {
  }

  /** The traits are canonical when the lesson count and the difficulty
      are not zero (a zero would be read back as ''). */
  lemma TraitsCanonical(course: YogaCourse)
    requires course.lessons > 0 && course.difficulty > 0
    ensures forall i :: 0 <= i < |Traits(course)| ==>
              Traits(course)[i].traitType != ""
              && (Truthy(Traits(course)[i].value) || Traits(course)[i].value == JString(""))
  {
  }

  lemma GeneratedIsCanonical(course: YogaCourse)
    requires course.lessons > 0 && course.difficulty > 0
    ensures NftMetadataService.Canonical(AsCourseMetadata(GenerateNFTMetadata(course)))
  {
    TraitsCanonical(course);
    var m := GenerateNFTMetadata(course);
    assert m.attributes == Traits(course);
    assert |m.name| > 0 && |m.description| > 0 && |m.image| > 0;
  }

  /** A canonical generated record passes the validating service's checks
      and reads back as the record without `external_url`. */
  lemma CanonicalGeneratedValidates(m: GeneratedMetadata, stringOf: Json -> string)
    requires NftMetadataService.Canonical(AsCourseMetadata(m))
    ensures NftMetadataService.ValidateMetadata(GeneratedJson(m), stringOf) == Ok(AsCourseMetadata(m))
  {
    var cm := AsCourseMetadata(m);
    NftMetadataService.ValidateOfMetadataJson(cm, stringOf);
    GeneratedJsonMembers(m);
    NftMetadataService.MetadataJsonMembers(cm);
    ValidateReadsFiveMembers(GeneratedJson(m), MetadataJson(cm), stringOf);
  }

  lemma GeneratedJsonMembers(m: GeneratedMetadata)
    ensures GeneratedJson(m).JObject?
    ensures GeneratedJson(m).Member("name") == JString(m.name)
    ensures GeneratedJson(m).Member("description") == JString(m.description)
    ensures GeneratedJson(m).Member("image") == JString(m.image)
    ensures GeneratedJson(m).Member("external_url") == JString(m.externalUrl)
    ensures GeneratedJson(m).Member("attributes") == AttributesJson(m.attributes)
    ensures GeneratedJson(m).Member("properties") == PropertiesJson(m.properties)
  {
  }

  /** So does every generated record with non-zero counts. */
  lemma GeneratedMetadataValidates(course: YogaCourse, stringOf: Json -> string)
    requires course.lessons > 0 && course.difficulty > 0
    ensures NftMetadataService.ValidateMetadata(GeneratedJson(GenerateNFTMetadata(course)), stringOf)
            == Ok(AsCourseMetadata(GenerateNFTMetadata(course)))
  {
    GeneratedIsCanonical(course);
    CanonicalGeneratedValidates(GenerateNFTMetadata(course), stringOf);
  }

  /** The eight generated attributes, in order; the last is the constant category. */
  lemma GeneratedTraits(course: YogaCourse)
    ensures var attrs := GenerateNFTMetadata(course).attributes;
            |attrs| == 8
            && attrs[0].traitType == "Yoga Style" && attrs[1].traitType == "Level"
            && attrs[2].traitType == "Number of Lessons" && attrs[3].traitType == "Lesson Duration"
            && attrs[4].traitType == "Accessibility" && attrs[5].traitType == "Main Focus"
            && attrs[6].traitType == "Difficulty" && attrs[7].traitType == "Category"
            && attrs[7].value == JString("Course")
  {
    // The facts about the trait list first, then the one unfolding of the record.
    var attrs := Traits(course);
    assert |attrs| == 8 && attrs[7].value == JString("Course");
    assert attrs[0].traitType == "Yoga Style" && attrs[1].traitType == "Level"
        && attrs[2].traitType == "Number of Lessons" && attrs[3].traitType == "Lesson Duration";
    assert attrs[4].traitType == "Accessibility" && attrs[5].traitType == "Main Focus"
        && attrs[6].traitType == "Difficulty" && attrs[7].traitType == "Category";
    assert GenerateNFTMetadata(course).attributes == attrs;
  }

  // ---------------------------------------------------------------- slugs

  lemma {:induction false} UnderscoreWhitespaceClean(s: string)
    ensures forall i :: 0 <= i < |UnderscoreWhitespace(s)| ==> !IsWhitespace(UnderscoreWhitespace(s)[i])
    ensures forall i :: 0 <= i < |UnderscoreWhitespace(s)| ==>
              UnderscoreWhitespace(s)[i] == '_' || UnderscoreWhitespace(s)[i] in s
    decreases |s|
  {
    if s != [] {
      if IsWhitespace(s[0]) {
        var rest := DropWhitespace(s[1..]);
        UnderscoreWhitespaceClean(rest);
        assert forall c :: c in rest ==> c in s;
      } else {
        UnderscoreWhitespaceClean(s[1..]);
        assert forall c :: c in s[1..] ==> c in s;
      }
    }
  }

  /** A string without whitespace is left as it is. */
  lemma {:induction false} UnderscoreWhitespaceIdentity(s: string)
    requires forall i :: 0 <= i < |s| ==> !IsWhitespace(s[i])
    ensures UnderscoreWhitespace(s) == s
    decreases |s|
  {
    if s != [] {
      UnderscoreWhitespaceIdentity(s[1..]);
    }
  }

  lemma LowerFixes(s: string)
    requires forall i :: 0 <= i < |s| ==> LowerChar(s[i]) == s[i]
    ensures Lower(s) == s
  {
  }

  /** A slug has no whitespace and is its own slug. */
  lemma SlugIdempotent(s: string)
    ensures forall i :: 0 <= i < |Slug(s)| ==> !IsWhitespace(Slug(s)[i])
    ensures Slug(Slug(s)) == Slug(s)
  {
    var t := Slug(s);
    UnderscoreWhitespaceClean(Lower(s));
    forall i | 0 <= i < |t|
      ensures LowerChar(t[i]) == t[i]
    {
      if t[i] != '_' {
        var j :| 0 <= j < |s| && Lower(s)[j] == t[i];
      }
    }
    LowerFixes(t);
    UnderscoreWhitespaceIdentity(t);
  }

  /** A whitespace-free prefix passes through unchanged. */
  lemma {:induction false} UnderscoreWhitespaceOfPrefix(a: string, b: string)
    requires forall i :: 0 <= i < |a| ==> !IsWhitespace(a[i])
    ensures UnderscoreWhitespace(a + b) == a + UnderscoreWhitespace(b)
    decreases |a|
  {
    if a != [] {
      assert (a + b)[0] == a[0] && (a + b)[1..] == a[1..] + b;
      UnderscoreWhitespaceOfPrefix(a[1..], b);
      assert !IsWhitespace((a + b)[0]);
      calc {
        UnderscoreWhitespace(a + b);
        [a[0]] + UnderscoreWhitespace(a[1..] + b);
        [a[0]] + (a[1..] + UnderscoreWhitespace(b));
        { assert a == [a[0]] + a[1..]; }
        a + UnderscoreWhitespace(b);
      }
    } else {
      assert a + b == b;
    }
  }

  // ---------------------------------------------------------------- image

  /** The only ':' in the image base is the one after `https`. */
  lemma ImageBaseColon()
    ensures |ImageBase| == 36 && ImageBase[..6] == "https:"
    ensures forall k :: 6 <= k < |ImageBase| ==> ImageBase[k] != ':'
  {
  }

  /** So an image URL holds no `ipfs://`. */
  lemma ImageHoldsNoScheme(pad: string)
    requires AllDigits(pad)
    ensures forall j :: !OccursAt(ImageBase + pad, IpfsUtils.Scheme, j)
  {
    ImageBaseColon();
    var image := ImageBase + pad;
    forall j: nat
      ensures !OccursAt(image, IpfsUtils.Scheme, j)
    {
      if j + 7 <= |image| {
        if j + 4 == 5 {
          assert image[j] == ImageBase[1] == 't';
          assert image[j..j + 7][0] != IpfsUtils.Scheme[0];
        } else {
          if j + 4 < 36 {
            assert image[j + 4] == ImageBase[j + 4];
          } else {
            assert image[j + 4] == pad[j + 4 - 36];
          }
          assert image[j..j + 7][4] != IpfsUtils.Scheme[4];
        }
      }
    }
  }

  /** The last '.' in the image base is the one after `https://ipfs`. */
  lemma ImageBaseLastDot()
    ensures |ImageBase| == 36 && ImageBase[12] == '.'
    ensures forall k :: 12 < k < |ImageBase| ==> ImageBase[k] != '.'
  {
  }

  /** An image URL is not classified as a video: its extension is longer
      than any video extension. */
  lemma ImageIsNotVideo(pad: string)
    requires AllDigits(pad)
    ensures !IpfsUtils.IsVideoFile(ImageBase + pad)
  {
    ImageBaseLastDot();
    var head := ImageBase[..12];
    var tail := ImageBase[13..] + pad;
    assert ImageBase[12..] == "." + ImageBase[13..];
    assert ImageBase == head + ImageBase[12..];
    assert ImageBase + pad == head + "." + tail;
    forall k | 0 <= k < |tail|
      ensures tail[k] != '.'
    {
      if k < 23 {
        assert tail[k] == ImageBase[13 + k];
      } else {
        assert tail[k] == pad[k - 23];
      }
    }
    IpfsUtils.AfterLastDotOfJoin(head, tail);
    assert |IpfsUtils.GetFileExtension(ImageBase + pad)| == |tail| >= 23;
  }

  /** The media service reads the image of a generated record as it is. */
  lemma VideoCidOfGenerated(m: GeneratedMetadata)
    ensures IpfsService.VideoCid(GeneratedJson(m)) == Ok(IpfsUtils.ExtractCid(m.image))
  {
    assert GeneratedJson(m).Member("image") == JString(m.image);
  }

  /** The generated image is an HTTP gateway URL, not an `ipfs://` URI: the
      identifier extraction leaves it as it is, the media service asks each
      gateway for the whole HTTP URL, and the URL is not a video. */
  lemma GeneratedImageIsNotIpfsUri(course: YogaCourse)
    ensures var image := GenerateNFTMetadata(course).image;
            && IpfsUtils.ExtractCid(image) == image
            && IpfsService.VideoCid(GeneratedJson(GenerateNFTMetadata(course))) == Ok(image)
            && (forall i :: 0 <= i < |IpfsUtils.Gateways| ==>
                  IpfsUtils.GetIpfsUrl(IpfsUtils.ExtractCid(image), i) == IpfsUtils.Gateways[i] + image)
            && !IpfsUtils.IsVideoFile(image)
  {
    var m := GenerateNFTMetadata(course);
    var pad := PadId(course.id);
    PadIdReadsBack(course.id);
    var image := ImageBase + pad;
    assert m.image == image;
    ImageHoldsNoScheme(pad);
    IpfsUtils.ExtractCidWithoutScheme(image);
    ImageIsNotVideo(pad);
    VideoCidOfGenerated(m);
  }

  // ---------------------------------------------------------------- files

  /** The directory after writing `contents[i]` to `names[i]` in order: a
      later write to a name replaces an earlier one. */
  function Writes(names: seq<string>, contents: seq<Json>): map<string, Json>
    requires |names| == |contents|
    decreases |names|
  {
    if names == [] then map[]
    else
      var n := |names| - 1;
      Writes(names[..n], contents[..n])[names[n] := contents[n]]
  }

  /** The files written are exactly the names written to. */
  lemma {:induction false} WritesKeys(names: seq<string>, contents: seq<Json>)
    requires |names| == |contents|
    ensures forall name :: name in Writes(names, contents) <==> name in names
    decreases |names|
  {
    if names != [] {
      var n := |names| - 1;
      WritesKeys(names[..n], contents[..n]);
      assert names == names[..n] + [names[n]];
    }
  }

  /** With distinct names, each file holds the content written to it. */
  lemma {:induction false} WritesValues(names: seq<string>, contents: seq<Json>)
    requires |names| == |contents|
    requires forall i, j :: 0 <= i < j < |names| ==> names[i] != names[j]
    ensures forall i :: 0 <= i < |names| ==> names[i] in Writes(names, contents) && Writes(names, contents)[names[i]] == contents[i]
    decreases |names|
  {
    if names != [] {
      var n := |names| - 1;
      var init, initContents := names[..n], contents[..n];
      WritesValues(init, initContents);
      forall i | 0 <= i < n
        ensures names[i] in Writes(names, contents) && Writes(names, contents)[names[i]] == contents[i]
      {
        assert init[i] == names[i] && initContents[i] == contents[i];
      }
    }
  }

  /** With distinct names, there are as many files as names. */
  lemma {:induction false} WritesSize(names: seq<string>, contents: seq<Json>)
    requires |names| == |contents|
    requires forall i, j :: 0 <= i < j < |names| ==> names[i] != names[j]
    ensures |Writes(names, contents).Keys| == |names|
    decreases |names|
  {
    if names != [] {
      var n := |names| - 1;
      var init, initContents := names[..n], contents[..n];
      WritesSize(init, initContents);
      WritesKeys(init, initContents);
      var before := Writes(init, initContents);
      assert names[n] !in before.Keys;
      assert Writes(names, contents).Keys == before.Keys + {names[n]};
    }
  }

  /** With distinct names, there is one file per write and each holds what
      was written to it. */
  lemma WritesOnePerName(names: seq<string>, contents: seq<Json>)
    requires |names| == |contents|
    requires forall i, j :: 0 <= i < j < |names| ==> names[i] != names[j]
    ensures forall name :: name in Writes(names, contents) <==> name in names
    ensures forall i :: 0 <= i < |names| ==> Writes(names, contents)[names[i]] == contents[i]
    ensures |Writes(names, contents).Keys| == |names|
  {
    WritesKeys(names, contents);
    WritesValues(names, contents);
    WritesSize(names, contents);
  }

  lemma WritesStep(names: seq<string>, contents: seq<Json>, i: nat)
    requires |names| == |contents| && i < |names|
    ensures Writes(names[..i + 1], contents[..i + 1]) == Writes(names[..i], contents[..i])[names[i] := contents[i]]
  {
    assert names[..i + 1][..i] == names[..i] && contents[..i + 1][..i] == contents[..i];
  }

  function FileNames(courses: seq<YogaCourse>): (r: seq<string>)
    ensures |r| == |courses| && forall i :: 0 <= i < |courses| ==> r[i] == FileName(courses[i])
  {
    seq(|courses|, i requires 0 <= i < |courses| => FileName(courses[i]))
  }

  function FileContents(courses: seq<YogaCourse>): (r: seq<Json>)
    ensures |r| == |courses|
    ensures forall i :: 0 <= i < |courses| ==> r[i] == GeneratedJson(GenerateNFTMetadata(courses[i]))
  {
    seq(|courses|, i requires 0 <= i < |courses| => GeneratedJson(GenerateNFTMetadata(courses[i])))
  }

  /** The files the generator writes for a list of courses. */
  function WrittenFiles(courses: seq<YogaCourse>): map<string, Json>
  {
    Writes(FileNames(courses), FileContents(courses))
  }

  predicate DistinctFileNames(courses: seq<YogaCourse>)
  {
    forall i, j :: 0 <= i < j < |courses| ==> FileName(courses[i]) != FileName(courses[j])
  }

  /** With distinct file names every course's file is kept. */
  lemma WrittenFilesOfDistinct(courses: seq<YogaCourse>)
    requires DistinctFileNames(courses)
    ensures |WrittenFiles(courses).Keys| == |courses|
    ensures forall i :: 0 <= i < |courses| ==>
              FileName(courses[i]) in WrittenFiles(courses)
              && WrittenFiles(courses)[FileName(courses[i])] == GeneratedJson(GenerateNFTMetadata(courses[i]))
  {
    var names, contents := FileNames(courses), FileContents(courses);
    WritesOnePerName(names, contents);
    assert forall i :: 0 <= i < |courses| ==> names[i] == FileName(courses[i]) && names[i] in names;
  }

  /** Ids 1, 2, 3, ... in table order. */
  predicate NumberedFromOne(courses: seq<YogaCourse>)
  {
    forall i :: 0 <= i < |courses| ==> courses[i].id == i + 1
  }

  /** No course has zero lessons or zero difficulty. */
  predicate Counted(courses: seq<YogaCourse>)
  {
    forall i :: 0 <= i < |courses| ==> courses[i].lessons > 0 && courses[i].difficulty > 0
  }

  lemma CourseTableNumbered()
    ensures |Courses| == 20
    ensures forall i :: 0 <= i < |Courses| ==> Courses[i].id == i + 1
  {
  }

  lemma CourseTableCounted()
    ensures forall i :: 0 <= i < |Courses| ==> Courses[i].lessons > 0 && Courses[i].difficulty > 0
  {
  }

  /** One file is kept per course, and each passes the metadata service's
      validation. */
  predicate EveryFileValidates(courses: seq<YogaCourse>, stringOf: Json -> string)
  {
    |WrittenFiles(courses).Keys| == |courses|
    && forall i :: 0 <= i < |courses| ==>
         FileName(courses[i]) in WrittenFiles(courses)
         && NftMetadataService.ValidateMetadata(WrittenFiles(courses)[FileName(courses[i])], stringOf)
            == Ok(AsCourseMetadata(GenerateNFTMetadata(courses[i])))
  }

  /** Distinct ids give one file per course, and non-zero counts make every
      file pass the metadata service's validation. */
  lemma NumberedFilesValidate(courses: seq<YogaCourse>, stringOf: Json -> string)
    requires NumberedFromOne(courses) && Counted(courses)
    ensures EveryFileValidates(courses, stringOf)
  {
    forall i, j | 0 <= i < j < |courses|
      ensures FileName(courses[i]) != FileName(courses[j])
    {
      FileNameInjective(courses[i], courses[j]);
    }
    WrittenFilesOfDistinct(courses);
    forall i | 0 <= i < |courses|
      ensures NftMetadataService.ValidateMetadata(WrittenFiles(courses)[FileName(courses[i])], stringOf)
                 == Ok(AsCourseMetadata(GenerateNFTMetadata(courses[i])))
    {
      GeneratedMetadataValidates(courses[i], stringOf);
    }
  }

  /** The twenty files of the course table are all kept, and each passes
      the metadata service's validation. */
  lemma CourseTableFilesValidate(stringOf: Json -> string)
    ensures EveryFileValidates(Courses, stringOf)
  {
    CourseTableNumbered();
    CourseTableCounted();
    NumberedFilesValidate(Courses, stringOf);
  }

  // ---------------------------------------------------------------- counts

  /** `(stats[x] || 0)` */
  function Count(stats: map<string, nat>, x: string): nat
  {
    if x in stats then stats[x] else 0
  }

  /** The counts the generator accumulates, one increment per element. */
  function Tally(xs: seq<string>): map<string, nat>
    decreases |xs|
  {
    if xs == [] then map[]
    else
      var t := Tally(xs[..|xs| - 1]);
      var x := xs[|xs| - 1];
      t[x := Count(t, x) + 1]
  }

  /** Each count is the number of occurrences, and the keys are exactly the
      values that occur. */
  lemma {:induction false} TallyCounts(xs: seq<string>)
    ensures forall x :: Count(Tally(xs), x) == multiset(xs)[x]
    ensures forall x :: x in Tally(xs) <==> x in xs
    decreases |xs|
  {
    if xs != [] {
      var init := xs[..|xs| - 1];
      TallyCounts(init);
      assert xs == init + [xs[|xs| - 1]];
      assert multiset(xs) == multiset(init) + multiset{xs[|xs| - 1]};
    }
  }

  /** The sum of the counts. */
  ghost function Total(stats: map<string, nat>): nat
    decreases |stats|
  {
    if stats == map[] then 0
    else
      var k :| k in stats;
      stats[k] + Total(stats - {k})
  }

  lemma {:induction false} TotalRemove(stats: map<string, nat>, k: string)
    requires k in stats
    ensures Total(stats) == stats[k] + Total(stats - {k})
    decreases |stats|
  {
    var j :| j in stats && Total(stats) == stats[j] + Total(stats - {j});
    if j != k {
      TotalRemove(stats - {j}, k);
      TotalRemove(stats - {k}, j);
      assert stats - {j} - {k} == stats - {k} - {j};
    }
  }

  /** The counts add up to the number of elements counted. */
  lemma {:induction false} TallyTotal(xs: seq<string>)
    ensures Total(Tally(xs)) == |xs|
    decreases |xs|
  {
    if xs != [] {
      var t := Tally(xs[..|xs| - 1]);
      var x := xs[|xs| - 1];
      TallyTotal(xs[..|xs| - 1]);
      var u := t[x := Count(t, x) + 1];
      TotalRemove(u, x);
      assert u - {x} == t - {x};
      if x in t {
        TotalRemove(t, x);
      } else {
        assert t - {x} == t;
      }
    }
  }

  function Styles(courses: seq<YogaCourse>): (r: seq<string>)
    ensures |r| == |courses| && forall i :: 0 <= i < |courses| ==> r[i] == courses[i].style
  {
    seq(|courses|, i requires 0 <= i < |courses| => courses[i].style)
  }

  function Levels(courses: seq<YogaCourse>): (r: seq<string>)
    ensures |r| == |courses| && forall i :: 0 <= i < |courses| ==> r[i] == courses[i].level
  {
    seq(|courses|, i requires 0 <= i < |courses| => courses[i].level)
  }

  /** The first loop of `generateAllCourseNFTs`: one file per course. */
  method WriteCourseFiles(courses: seq<YogaCourse>) returns (files: map<string, Json>)
    ensures files == WrittenFiles(courses)
  {
    var names, contents := FileNames(courses), FileContents(courses);
    files := map[];
    for i := 0 to |courses|
      invariant files == Writes(names[..i], contents[..i])
    {
      var course := courses[i];
      var metadata := GenerateNFTMetadata(course);
      assert names[i] == FileName(course) && contents[i] == GeneratedJson(metadata);
      WritesStep(names, contents, i);
      files := files[FileName(course) := GeneratedJson(metadata)];
    }
    assert names[..|courses|] == names && contents[..|courses|] == contents;
  }

  /** The second loop of `generateAllCourseNFTs`: the courses per style and
      per level. */
  method CountCourses(courses: seq<YogaCourse>) returns (styleStats: map<string, nat>, levelStats: map<string, nat>)
    ensures styleStats == Tally(Styles(courses)) && levelStats == Tally(Levels(courses))
    ensures forall style :: Count(styleStats, style) == multiset(Styles(courses))[style]
    ensures forall level :: Count(levelStats, level) == multiset(Levels(courses))[level]
    ensures Total(styleStats) == |courses| && Total(levelStats) == |courses|
  {
    styleStats, levelStats := map[], map[];
    for i := 0 to |courses|
      invariant styleStats == Tally(Styles(courses[..i]))
      invariant levelStats == Tally(Levels(courses[..i]))
    {
      assert Styles(courses[..i + 1])[..i] == Styles(courses[..i]);
      assert Levels(courses[..i + 1])[..i] == Levels(courses[..i]);
      var course := courses[i];
      styleStats := styleStats[course.style := Count(styleStats, course.style) + 1];
      levelStats := levelStats[course.level := Count(levelStats, course.level) + 1];
    }
    assert courses[..|courses|] == courses;
    TallyCounts(Styles(courses));
    TallyCounts(Levels(courses));
    TallyTotal(Styles(courses));
    TallyTotal(Levels(courses));
  }

  /** `generateAllCourseNFTs`: writes one file per course, then counts the
      courses per style and per level. */
  method GenerateAllCourseNFTs(courses: seq<YogaCourse>)
    returns (files: map<string, Json>, styleStats: map<string, nat>, levelStats: map<string, nat>)
    ensures files == WrittenFiles(courses)
    ensures forall style :: Count(styleStats, style) == multiset(Styles(courses))[style]
    ensures forall level :: Count(levelStats, level) == multiset(Levels(courses))[level]
    ensures Total(styleStats) == |courses| && Total(levelStats) == |courses|
  {
    files := WriteCourseFiles(courses);
    styleStats, levelStats := CountCourses(courses);
  }
}
