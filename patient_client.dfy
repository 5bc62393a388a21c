/** The portal's patient client: the request each call makes. `apiUrl` is the
    configured base address followed by `/patients` (the environment file is
    not part of this model); ids and page numbers are integers, printed the
    way JavaScript prints them. Query parameters are kept in the order they
    are set. */
module PatientClient {
  import opened Wrappers
  import opened Ascii
  import opened PatientForm

  datatype Param = Param(name: string, value: string)

  datatype Request =
    | Get(url: string, params: seq<Param>)
    | Post(url: string, body: PatientPayload)
    | Put(url: string, body: PatientPayload)
    | Delete(url: string)

  /** A `PatientSearchCriteria`: every member optional. */
  datatype SearchCriteria = SearchCriteria(
    firstName: Option<string>,
    lastName: Option<string>,
    email: Option<string>,
    phone: Option<string>,
    page: Option<int>,
    size: Option<int>)

  /** The address of one patient. */
  function PatientUrl(apiUrl: string, id: int): (u: string)
    ensures |u| > |apiUrl| + 1 && u[..|apiUrl| + 1] == apiUrl + "/"
  {
    apiUrl + "/" + IntToDecimal(id)
  }

  /** `getPatients`: both the page and the size are always sent. Their
      defaults are page 0 and size 10, so a call with no arguments is
      `GetPatients(apiUrl, 0, 10)`. */
  function GetPatients(apiUrl: string, page: int, size: int): (r: Request)
    ensures r.Get? && r.url == apiUrl
    ensures r.params == [Param("page", IntToDecimal(page)), Param("size", IntToDecimal(size))]
  {
    Get(apiUrl, [Param("page", IntToDecimal(page)), Param("size", IntToDecimal(size))])
  }

  function GetPatient(apiUrl: string, id: int): (r: Request)
    ensures r == Get(PatientUrl(apiUrl, id), [])
  {
    Get(apiUrl + "/" + IntToDecimal(id), [])
  }

  function CreatePatient(apiUrl: string, patient: PatientPayload): (r: Request)
    ensures r.Post? && r.url == apiUrl && r.body == patient
  {
    Post(apiUrl, patient)
  }

  function UpdatePatient(apiUrl: string, id: int, patient: PatientPayload): (r: Request)
    ensures r == Put(PatientUrl(apiUrl, id), patient)
  {
    Put(apiUrl + "/" + IntToDecimal(id), patient)
  }

  function DeletePatient(apiUrl: string, id: int): (r: Request)
    ensures r == Delete(PatientUrl(apiUrl, id))
  {
    Delete(apiUrl + "/" + IntToDecimal(id))
  }

  function GetPatientMedicalHistory(apiUrl: string, id: int): (r: Request)
    ensures r == Get(PatientUrl(apiUrl, id) + "/medical-history", [])
  {
    Get(apiUrl + "/" + IntToDecimal(id) + "/medical-history", [])
  }

  /** A JavaScript text is truthy when present and not empty. */
  predicate Truthy(s: Option<string>) {
    s.Some? && s.value != ""
  }

  /** The position of each search parameter in the order they are set. */
  function Rank(name: string): int {
    if name == "firstName" then 0
    else if name == "lastName" then 1
    else if name == "email" then 2
    else if name == "phone" then 3
    else if name == "page" then 4
    else if name == "size" then 5
    else 6
  }

  function TextParam(name: string, value: Option<string>): (ps: seq<Param>)
    ensures Truthy(value) ==> ps == [Param(name, value.value)]
    ensures !Truthy(value) ==> ps == []
  {
    if Truthy(value) then [Param(name, value.value)] else []
  }

  function NumberParam(name: string, value: Option<int>): (ps: seq<Param>)
    ensures value.Some? ==> ps == [Param(name, IntToDecimal(value.value))]
    ensures value.None? ==> ps == []
  {
    if value.Some? then [Param(name, IntToDecimal(value.value))] else []
  }

  /** The value of the first parameter of that name, if any. */
  function Lookup(ps: seq<Param>, name: string): Option<string> {
    if ps == [] then None
    else if ps[0].name == name then Some(ps[0].value)
    else Lookup(ps[1..], name)
  }

  lemma {:induction false} LookupAppend(a: seq<Param>, b: seq<Param>, name: string)
    ensures Lookup(a + b, name) == if Lookup(a, name).Some? then Lookup(a, name) else Lookup(b, name)
  {
    if a == [] {
      assert a + b == b;
    } else {
      assert (a + b)[0] == a[0] && (a + b)[1..] == a[1..] + b;
      LookupAppend(a[1..], b, name);
    }
  }

  /** Parameters in the order they are set. */
  predicate InOrder(ps: seq<Param>) {
    forall i, j :: 0 <= i < j < |ps| ==> Rank(ps[i].name) < Rank(ps[j].name)
  }

  predicate RanksBelow(ps: seq<Param>, k: int) {
    forall i :: 0 <= i < |ps| ==> Rank(ps[i].name) < k
  }

  /** Setting a parameter of a later rank keeps the order. */
  lemma SetInOrder(ps: seq<Param>, q: seq<Param>, k: int)
    requires InOrder(ps) && RanksBelow(ps, k)
    requires q == [] || (|q| == 1 && Rank(q[0].name) == k)
    ensures InOrder(ps + q) && RanksBelow(ps + q, k + 1)
  {
  }

  /** The query parameters of `searchPatients`, set one after the other. */
  function SearchParams(c: SearchCriteria): seq<Param> {
    TextParam("firstName", c.firstName) + TextParam("lastName", c.lastName) +
    TextParam("email", c.email) + TextParam("phone", c.phone) +
    NumberParam("page", c.page) + NumberParam("size", c.size)
  }

  /** The value sent for a text criterion: only a non-empty one. */
  function SentText(s: Option<string>): Option<string> {
    if Truthy(s) then s else None
  }

  /** `searchPatients`: a text criterion is sent only when it is not empty;
      the page and the size whenever they are given, 0 included; and always
      in the order first name, last name, e-mail, phone, page, size. */
  function SearchPatients(apiUrl: string, c: SearchCriteria): (r: Request)
    ensures r == Get(apiUrl + "/search", SearchParams(c))
  {
    Get(apiUrl + "/search", SearchParams(c))
  }

  lemma LookupText(name: string, v: Option<string>, n: string)
    ensures Lookup(TextParam(name, v), n) == if n == name then SentText(v) else None
  {
    if Truthy(v) {
      assert TextParam(name, v)[1..] == [];
    }
  }

  lemma LookupNumber(name: string, v: Option<int>, n: string)
    ensures Lookup(NumberParam(name, v), n) == if n == name && v.Some? then Some(IntToDecimal(v.value)) else None
  {
    if v.Some? {
      assert NumberParam(name, v)[1..] == [];
    }
  }

  /** A search parameter's value is the one its own criterion sets: the other
      criteria set parameters of other names. */
  lemma SearchLookup(c: SearchCriteria, n: string)
    ensures Lookup(SearchParams(c), n) ==
      if n == "firstName" then SentText(c.firstName)
      else if n == "lastName" then SentText(c.lastName)
      else if n == "email" then SentText(c.email)
      else if n == "phone" then SentText(c.phone)
      else if n == "page" && c.page.Some? then Some(IntToDecimal(c.page.value))
      else if n == "size" && c.size.Some? then Some(IntToDecimal(c.size.value))
      else None
  {
    var p1 := TextParam("firstName", c.firstName);
    var p2 := TextParam("lastName", c.lastName);
    var p3 := TextParam("email", c.email);
    var p4 := TextParam("phone", c.phone);
    var p5 := NumberParam("page", c.page);
    var p6 := NumberParam("size", c.size);
    LookupText("firstName", c.firstName, n);
    LookupText("lastName", c.lastName, n);
    LookupText("email", c.email, n);
    LookupText("phone", c.phone, n);
    LookupNumber("page", c.page, n);
    LookupNumber("size", c.size, n);
    LookupAppend(p1, p2, n);
    LookupAppend(p1 + p2, p3, n);
    LookupAppend(p1 + p2 + p3, p4, n);
    LookupAppend(p1 + p2 + p3 + p4, p5, n);
    LookupAppend(p1 + p2 + p3 + p4 + p5, p6, n);
  }

  /** Which search parameters are sent, and with what value. */
  lemma SearchParamsSent(c: SearchCriteria)
    ensures Lookup(SearchParams(c), "firstName") == SentText(c.firstName)
    ensures Lookup(SearchParams(c), "lastName") == SentText(c.lastName)
    ensures Lookup(SearchParams(c), "email") == SentText(c.email)
    ensures Lookup(SearchParams(c), "phone") == SentText(c.phone)
    ensures Lookup(SearchParams(c), "page") == (if c.page.Some? then Some(IntToDecimal(c.page.value)) else None)
    ensures Lookup(SearchParams(c), "size") == (if c.size.Some? then Some(IntToDecimal(c.size.value)) else None)
  {
    SearchLookup(c, "firstName");
    SearchLookup(c, "lastName");
    SearchLookup(c, "email");
    SearchLookup(c, "phone");
    SearchLookup(c, "page");
    SearchLookup(c, "size");
  }

  /** The search parameters always come in the same order. */
  lemma SearchParamsInOrder(c: SearchCriteria)
    ensures InOrder(SearchParams(c))
  {
    var p1 := TextParam("firstName", c.firstName);
    var p2 := TextParam("lastName", c.lastName);
    var p3 := TextParam("email", c.email);
    var p4 := TextParam("phone", c.phone);
    var p5 := NumberParam("page", c.page);
    var p6 := NumberParam("size", c.size);
    SetInOrder([], p1, 0);
    assert [] + p1 == p1;
    SetInOrder(p1, p2, 1);
    SetInOrder(p1 + p2, p3, 2);
    SetInOrder(p1 + p2 + p3, p4, 3);
    SetInOrder(p1 + p2 + p3 + p4, p5, 4);
    SetInOrder(p1 + p2 + p3 + p4 + p5, p6, 5);
  }

  /** An empty criterion is not sent at all, so searching with it is the
      same as searching without it. */
  lemma EmptyTextIsOmitted(apiUrl: string, c: SearchCriteria)
    ensures SearchPatients(apiUrl, c.(firstName := Some(""))) == SearchPatients(apiUrl, c.(firstName := None))
    ensures SearchPatients(apiUrl, c.(phone := Some(""))) == SearchPatients(apiUrl, c.(phone := None))
  {
  }

  /** Different patients have different addresses. */
  lemma PatientUrlInjective(apiUrl: string, a: int, b: int)
    requires PatientUrl(apiUrl, a) == PatientUrl(apiUrl, b)
    ensures a == b
  {
    var n := |apiUrl| + 1;
    assert IntToDecimal(a) == PatientUrl(apiUrl, a)[n..];
    assert IntToDecimal(b) == PatientUrl(apiUrl, b)[n..];
    IntToDecimalInjective(a, b);
  }

  /** The search address is no patient's address. */
  lemma SearchIsNoPatient(apiUrl: string, id: int)
    ensures SearchPatients(apiUrl, SearchCriteria(None, None, None, None, None, None)).url != PatientUrl(apiUrl, id)
  {
    var n := |apiUrl| + 1;
    DecimalSign(id);
    if id >= 0 {
      assert '0' <= NatToDecimal(id)[0] <= '9';
    }
    assert (apiUrl + "/search")[n] == 's';
    assert PatientUrl(apiUrl, id)[n] == IntToDecimal(id)[0];
  }
}
