/**
 * The request-body validator of the comment resource: `CreateCommentDto`,
 * whose `text` must be a string of 5 to 1024 characters and whose `rating`
 * must be an integer from 1 to 5.
 *
 * A request body is a JSON-like object: a map from property names to field
 * values. A property that is absent reads as `Other`, like `undefined`.
 */
module CommentDto {
  import opened Wrappers

  /** A field value of a parsed JSON body. Numbers are exact reals; every
      other JSON value (boolean, null, object, array), an absent property
      and the non-finite numbers are `Other`. */
  datatype Value = Str(chars: string) | Num(x: real) | Other

  type Body = map<string, Value>

  /** The constraint decorators declared on the DTO's two properties. */
  datatype Constraint = IsString | Length | IsInt | Min | Max

  /** One entry per failing property, naming every constraint it failed. */
  datatype Violation = Violation(property: string, value: Value, constraints: set<Constraint>)

  /** The typed DTO a valid body becomes. */
  datatype CreateCommentDto = CreateCommentDto(text: string, rating: int)

  const TextMinLength := 5
  const TextMaxLength := 1024
  const RatingMin := 1
  const RatingMax := 5

  /** The value stored under `name`, `Other` when the property is absent. */
  function Field(body: Body, name: string): Value {
    if name in body then body[name] else Other
  }

  predicate IsIntegral(x: real) {
    x.Floor as real == x
  }

  /** The constraints of `text` that `v` fails. `@Length` also fails on a
      value that is not a string. */
  function TextFailures(v: Value): (cs: set<Constraint>)
    ensures cs <= {IsString, Length}
    ensures IsString in cs <==> !v.Str?
    ensures Length in cs <==> !(v.Str? && TextMinLength <= |v.chars| <= TextMaxLength)
  {
    (if v.Str? then {} else {IsString}) +
    (if v.Str? && TextMinLength <= |v.chars| <= TextMaxLength then {} else {Length})
  }

  /** The constraints of `rating` that `v` fails. `@Min` and `@Max` also fail
      on a value that is not a number. */
  function RatingFailures(v: Value): (cs: set<Constraint>)
    ensures cs <= {IsInt, Min, Max}
    ensures IsInt in cs <==> !(v.Num? && IsIntegral(v.x))
    ensures Min in cs <==> !(v.Num? && v.x >= RatingMin as real)
    ensures Max in cs <==> !(v.Num? && v.x <= RatingMax as real)
  {
    (if v.Num? && IsIntegral(v.x) then {} else {IsInt}) +
    (if v.Num? && v.x >= RatingMin as real then {} else {Min}) +
    (if v.Num? && v.x <= RatingMax as real then {} else {Max})
  }

  /** `text` is acceptable exactly when it is a string of 5 to 1024 characters. */
  predicate ValidText(v: Value) {
    v.Str? && TextMinLength <= |v.chars| <= TextMaxLength
  }

  /** `rating` is acceptable exactly when it is an integer from 1 to 5. */
  predicate ValidRating(v: Value) {
    v.Num? && IsIntegral(v.x) && RatingMin as real <= v.x <= RatingMax as real
  }

  /** The violation of one property, absent when it fails no constraint. */
  function Report(property: string, v: Value, failed: set<Constraint>): (r: seq<Violation>)
    ensures |r| <= 1
    ensures r == [] <==> failed == {}
    ensures forall e :: e in r ==> e == Violation(property, v, failed)
  {
    if failed == {} then [] else [Violation(property, v, failed)]
  }

  /** Validates every declared property and either builds the DTO or reports
      all violations at once, in declaration order. */
  function Validate(body: Body): (r: Result<CreateCommentDto, seq<Violation>>)
    ensures r.Ok? <==> ValidText(Field(body, "text")) && ValidRating(Field(body, "rating"))
    ensures r.Ok? ==>
      Field(body, "text") == Str(r.value.text) &&
      Field(body, "rating") == Num(r.value.rating as real) &&
      TextMinLength <= |r.value.text| <= TextMaxLength &&
      RatingMin <= r.value.rating <= RatingMax
    ensures r.Err? ==>
      r.error != [] &&
      |r.error| == (if ValidText(Field(body, "text")) then 0 else 1)
                 + (if ValidRating(Field(body, "rating")) then 0 else 1)
    ensures r.Err? ==> forall i :: 0 <= i < |r.error| ==>
      r.error[i].constraints != {} &&
      r.error[i].constraints == (if r.error[i].property == "text" then TextFailures(r.error[i].value)
                                 else RatingFailures(r.error[i].value)) &&
      r.error[i].value == Field(body, r.error[i].property) &&
      (r.error[i].property == "text" ==> !ValidText(r.error[i].value)) &&
      (r.error[i].property == "rating" ==> !ValidRating(r.error[i].value)) &&
      (r.error[i].property == "text" || r.error[i].property == "rating")
    ensures r.Err? && |r.error| == 2 ==>
      r.error[0].property == "text" && r.error[1].property == "rating"
  {
    var text, rating := Field(body, "text"), Field(body, "rating");
    var violations := Report("text", text, TextFailures(text)) + Report("rating", rating, RatingFailures(rating));
    if violations == [] then Ok(CreateCommentDto(text.chars, rating.x.Floor))
    else Err(violations)
  }

  /** The length bounds are inclusive at both ends. */
  lemma TextLengthBoundaries(s: string)
    ensures |s| == 5 || |s| == 1024 ==> Validate(map["text" := Str(s), "rating" := Num(3.0)]).Ok?
    ensures |s| == 4 || |s| == 1025 ==> TextFailures(Str(s)) == {Length}
  {
  }

  /** The rating bounds are inclusive at both ends; a fraction between them
      fails only `@IsInt`, a string fails every numeric constraint. */
  lemma RatingBoundaries()
    ensures RatingFailures(Num(1.0)) == {} && RatingFailures(Num(5.0)) == {}
    ensures RatingFailures(Num(0.0)) == {Min} && RatingFailures(Num(6.0)) == {Max}
    ensures RatingFailures(Num(2.5)) == {IsInt}
    ensures RatingFailures(Str("3")) == {IsInt, Min, Max}
  {
  }

  /** A body failing both properties gets both violations in one report. */
  lemma BothPropertiesReported(s: string)
    requires |s| == 4
    ensures Validate(map["text" := Str(s), "rating" := Num(6.0)])
         == Err([Violation("text", Str(s), {Length}), Violation("rating", Num(6.0), {Max})])
  {
    var body := map["text" := Str(s), "rating" := Num(6.0)];
    assert Field(body, "text") == Str(s) && Field(body, "rating") == Num(6.0);
    assert TextFailures(Str(s)) == {Length};
    assert RatingFailures(Num(6.0)) == {Max};
    var vs := Report("text", Str(s), {Length}) + Report("rating", Num(6.0), {Max});
    assert vs == [Violation("text", Str(s), {Length}), Violation("rating", Num(6.0), {Max})];
  }
}
