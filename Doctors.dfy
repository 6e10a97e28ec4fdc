/**
  The doctor locator (`find_nearby_doctors` in Deployment/app.py): maps the
  tagged points returned by the geospatial service to at most five doctor
  records, in the service's order, with placeholder text for missing tags and a
  synthetic distance that grows by half a kilometre per entry.

  The HTTP query and JSON decoding are the input `response`: None stands for a
  request that raised or a body that did not decode. Distances are kept in
  exact tenths of a kilometre.
 */
module Doctors {
  import opened Json

  /** `data.get("elements", [])[:5]`. */
  const MaxDoctors := 5

  const UnnamedDoctor := "Unnamed Doctor"
  const GeneralPractitioner := "General Practitioner"
  const NoEmail := "N/A"

  datatype Doctor = Doctor(name: Value, specialty: Value, distanceTenths: int, email: Value)

  /** `round(radius_km * 0.3 + 0.5 * index, 1)` in tenths of a kilometre. */
  function DistanceTenths(radiusKm: int, index: nat): int {
    3 * radiusKm + 5 * index
  }

  /** `element.get("tags", {})`: None when the element or its tags are not a
      dictionary, where the Python code raises. */
  function TagsOf(element: Value): Option<map<string, Value>> {
    match element
    case JObj(fields) =>
      (match Get(fields, "tags", JObj(map[]))
       case JObj(tags) => Some(tags)
       case _ => None)
    case _ => None
  }

  /** The record built for one element at position `index` of the list. */
  function ToDoctor(element: Value, index: nat, radiusKm: int): Option<Doctor> {
    match TagsOf(element)
    case None => None
    case Some(tags) =>
      Some(Doctor(Get(tags, "name", JStr(UnnamedDoctor)),
                  Get(tags, "specialty", JStr(GeneralPractitioner)),
                  DistanceTenths(radiusKm, index),
                  Get(tags, "email", JStr(NoEmail))))
  }

  /** The records the loop has appended after visiting `elements`; the index of
      each new record is the number appended before it, `len(doctors)`. */
  function Records(elements: seq<Value>, radiusKm: int): Option<seq<Doctor>>
    decreases |elements|
  {
    if elements == [] then Some([])
    else
      match Records(elements[..|elements| - 1], radiusKm)
      case None => None
      case Some(done) =>
        match ToDoctor(elements[|elements| - 1], |done|, radiusKm)
        case None => None
        case Some(d) => Some(done + [d])
  }

  /** The first five elements, or None when `data.get("elements", [])[:5]`
      raises or the first element of a non-empty string fails `.get`: either
      way the function returns the empty list. */
  function Elements(response: Option<Value>): Option<seq<Value>> {
    match response
    case Some(JObj(fields)) =>
      (match Get(fields, "elements", JArr([]))
       case JArr(items) => Some(if |items| <= MaxDoctors then items else items[..MaxDoctors])
       case _ => None)
    case _ => None
  }

  /** What `find_nearby_doctors` returns for a decoded response. */
  function DoctorsOf(response: Option<Value>, radiusKm: int): seq<Doctor> {
    match Elements(response)
    case None => []
    case Some(elements) =>
      match Records(elements, radiusKm)
      case None => []
      case Some(doctors) => doctors
  }

  /** The loop of `find_nearby_doctors`, appending one record per element and
      giving up with the empty list as soon as an element is malformed. */
  method FindNearbyDoctors(response: Option<Value>, radiusKm: int) returns (doctors: seq<Doctor>)
    ensures doctors == DoctorsOf(response, radiusKm)
  {
    var elements := Elements(response);
    if elements.None? {
      return [];
    }
    var items := elements.value;
    doctors := [];
    for i := 0 to |items|
      invariant Records(items[..i], radiusKm) == Some(doctors)
    {
      var tags := TagsOf(items[i]);
      if tags.None? {
        RecordsFailIff(items, radiusKm);
        return [];
      }
      var name := Get(tags.value, "name", JStr(UnnamedDoctor));
      var specialty := Get(tags.value, "specialty", JStr(GeneralPractitioner));
      var email := Get(tags.value, "email", JStr(NoEmail));
      var distance := DistanceTenths(radiusKm, |doctors|);
      assert items[..i + 1][..i] == items[..i];
      doctors := doctors + [Doctor(name, specialty, distance, email)];
    }
    assert items[..|items|] == items;
  }

  /** The records fail exactly when some element is malformed. */
  lemma {:induction false} RecordsFailIff(elements: seq<Value>, radiusKm: int)
    ensures Records(elements, radiusKm).None? <==> exists i :: 0 <= i < |elements| && TagsOf(elements[i]).None?
    decreases |elements|
  {
    if elements != [] {
      var front := elements[..|elements| - 1];
      RecordsFailIff(front, radiusKm);
      if Records(front, radiusKm).None? {
        var i :| 0 <= i < |front| && TagsOf(front[i]).None?;
        assert elements[i] == front[i];
      } else if TagsOf(elements[|elements| - 1]).Some? {
        forall i | 0 <= i < |elements|
          ensures TagsOf(elements[i]).Some?
        {
          if i < |front| {
            assert elements[i] == front[i];
          }
        }
      }
    }
  }

  /** When no element is malformed there is one record per element, and record
      `i` holds element `i`'s tags, or their placeholders, at distance
      `3 * radius + 5 * i` tenths. */
  lemma {:induction false} RecordsAt(elements: seq<Value>, radiusKm: int)
    requires Records(elements, radiusKm).Some?
    ensures |Records(elements, radiusKm).value| == |elements|
    ensures forall i | 0 <= i < |elements| :: Some(Records(elements, radiusKm).value[i]) == ToDoctor(elements[i], i, radiusKm)
    decreases |elements|
  {
    if elements != [] {
      var front := elements[..|elements| - 1];
      RecordsAt(front, radiusKm);
      forall i | 0 <= i < |front|
        ensures elements[i] == front[i]
      {
      }
    }
  }

  /** Every element is a dictionary whose tags, if any, are a dictionary. */
  predicate AllTagged(elements: seq<Value>) {
    forall i | 0 <= i < |elements| :: TagsOf(elements[i]).Some?
  }

  /** At most five doctors are returned and a malformed response or element
      gives none; otherwise there is one doctor per element, and the i-th comes
      from the i-th element, with "Unnamed Doctor", "General Practitioner" and
      "N/A" for missing tags and its distance set by its position. */
  lemma DoctorsFollowElements(response: Option<Value>, radiusKm: int)
    ensures |DoctorsOf(response, radiusKm)| <= MaxDoctors
    ensures Elements(response).None? ==> DoctorsOf(response, radiusKm) == []
    ensures Elements(response).Some? && !AllTagged(Elements(response).value) ==> DoctorsOf(response, radiusKm) == []
    ensures Elements(response).Some? && AllTagged(Elements(response).value) ==>
              var elements := Elements(response).value;
              var doctors := DoctorsOf(response, radiusKm);
              && |doctors| == |elements|
              && (forall i | 0 <= i < |elements| ::
                    var tags := TagsOf(elements[i]).value;
                    && doctors[i].name == (if "name" in tags then tags["name"] else JStr(UnnamedDoctor))
                    && doctors[i].specialty == (if "specialty" in tags then tags["specialty"] else JStr(GeneralPractitioner))
                    && doctors[i].email == (if "email" in tags then tags["email"] else JStr(NoEmail))
                    && doctors[i].distanceTenths == DistanceTenths(radiusKm, i))
  {
    if Elements(response).Some? {
      var elements := Elements(response).value;
      RecordsFailIff(elements, radiusKm);
      if Records(elements, radiusKm).Some? {
        RecordsAt(elements, radiusKm);
      }
    }
  }

  /** The elements visited are the service's list cut to its first five, in
      the service's order; a response that is not a dictionary, or whose
      "elements" entry is present but not a list, visits none. */
  lemma ElementsArePrefix(response: Option<Value>)
    ensures Elements(response).Some? <==>
              response.Some? && response.value.JObj?
              && ("elements" in response.value.fields ==> response.value.fields["elements"].JArr?)
    ensures Elements(response).Some? && "elements" in response.value.fields ==>
              var items := response.value.fields["elements"].items;
              && Elements(response).value <= items
              && |Elements(response).value| == if |items| < MaxDoctors then |items| else MaxDoctors
    ensures Elements(response).Some? && "elements" !in response.value.fields ==> Elements(response).value == []
  {
  }

  /** Distances start at 0.3 times the radius and strictly increase by half a
      kilometre from one doctor to the next. */
  lemma DistancesIncrease(response: Option<Value>, radiusKm: int)
    ensures forall i, j | 0 <= i < j < |DoctorsOf(response, radiusKm)| ::
              DoctorsOf(response, radiusKm)[i].distanceTenths < DoctorsOf(response, radiusKm)[j].distanceTenths
    ensures forall i | 0 <= i < |DoctorsOf(response, radiusKm)| ::
              DoctorsOf(response, radiusKm)[i].distanceTenths == 3 * radiusKm + 5 * i
  {
    DoctorsFollowElements(response, radiusKm);
  }
}
