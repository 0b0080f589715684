/**
 * Turning the parsed employee file into one retrieval document per employee:
 * a fixed-order descriptive text and an `{id, name}` metadata dictionary.
 */
module EmployeeDocuments {
  import opened Wrappers
  import opened Text

  /**
   * One entry of the file's `employees` list as parsed from JSON: a dictionary
   * in which each key the loader reads may be missing.
   */
  datatype RawEmployee = RawEmployee(
    id: Option<string>,
    name: Option<string>,
    experienceYears: Option<nat>,
    skills: Option<seq<string>>,
    projects: Option<seq<string>>,
    availability: Option<string>)

  /** The parsed top-level object of the file; it may lack the `employees` key. */
  datatype ParsedData = ParsedData(employees: Option<seq<RawEmployee>>)

  /** An employee record whose every field the loader reads is present. */
  datatype Employee = Employee(
    id: string,
    name: string,
    experienceYears: nat,
    skills: seq<string>,
    projects: seq<string>,
    availability: string)

  /** A retrieval document: its text and its metadata dictionary. */
  datatype Document = Document(pageContent: string, metadata: map<string, string>)

  /**
   * The keys of an employee dictionary the loader reads: `name`,
   * `experience_years`, `skills`, `projects`, `availability` and `id`.
   */
  datatype Field = Name | ExperienceYears | Skills | Projects | Availability | Id

  /**
   * The position at which the loader reads a field: the content text reads
   * name, experience, skills, projects and availability, then the metadata
   * reads id.
   */
  function Rank(f: Field): nat
  {
    match f
    case Name => 0
    case ExperienceYears => 1
    case Skills => 2
    case Projects => 3
    case Availability => 4
    case Id => 5
  }

  /** Why loading stopped: the file had no employee list, or a record missed a key. */
  datatype LoadError =
    | MissingEmployees
    | MissingField(index: nat, field: Field)

  /** Whether the employee dictionary holds the key of `f`. */
  predicate Has(raw: RawEmployee, f: Field)
  {
    match f
    case Name => raw.name.Some?
    case ExperienceYears => raw.experienceYears.Some?
    case Skills => raw.skills.Some?
    case Projects => raw.projects.Some?
    case Availability => raw.availability.Some?
    case Id => raw.id.Some?
  }

  /**
   * Reads the keys of one employee dictionary in the loader's order; the
   * first missing key aborts the read and is reported.
   */
  function Lookup(raw: RawEmployee): (r: Result<Employee, Field>)
    ensures r.Success? <==> forall f :: Has(raw, f)
    ensures r.Failure? ==> !Has(raw, r.error) && forall f :: Rank(f) < Rank(r.error) ==> Has(raw, f)
    ensures r.Success? ==> raw == RawEmployee(Some(r.value.id), Some(r.value.name),
      Some(r.value.experienceYears), Some(r.value.skills), Some(r.value.projects),
      Some(r.value.availability))
  {
    if raw.name.None? then assert !Has(raw, Name); Failure(Name)
    else if raw.experienceYears.None? then assert !Has(raw, ExperienceYears); Failure(ExperienceYears)
    else if raw.skills.None? then assert !Has(raw, Skills); Failure(Skills)
    else if raw.projects.None? then assert !Has(raw, Projects); Failure(Projects)
    else if raw.availability.None? then assert !Has(raw, Availability); Failure(Availability)
    else if raw.id.None? then assert !Has(raw, Id); Failure(Id)
    else Success(Employee(raw.id.value, raw.name.value, raw.experienceYears.value,
      raw.skills.value, raw.projects.value, raw.availability.value))
  }

  /** The separator the skill and project lists are joined with. */
  const ListSeparator: string := ", "

  /**
   * The content f-string with its five interpolated values already turned
   * into text (grouped sentence by sentence from the end, which leaves the
   * text unchanged); it adds a fixed 70 characters of labels and punctuation to
   * the five values.
   */
  function Content(name: string, experience: string, skills: string, projects: string,
                   availability: string): (r: string)
    ensures |r| == |name| + |experience| + |skills| + |projects| + |availability| + 70
  {
    "Name: " + name + ". " + (
    "Experience: " + experience + " years. " + (
    "Skills: " + skills + ". " + (
    "Past Projects: " + projects + ". " + (
    "Availability: " + availability + "."))))
  }

  /**
   * The descriptive text of an employee, the input the vector index embeds:
   * the labelled sentences of its fields in their fixed order.
   */
  function Render(e: Employee): (r: string)
    ensures r == Describe(Fields(e))
  {
    ContentDescribes(e.name, NatToString(e.experienceYears), Join(e.skills, ListSeparator),
      Join(e.projects, ListSeparator), e.availability);
    Content(e.name, NatToString(e.experienceYears), Join(e.skills, ListSeparator),
      Join(e.projects, ListSeparator), e.availability)
  }

  /** The labelled fields of an employee, in the order they are described. */
  function Fields(e: Employee): seq<(string, string)>
  {
    [("Name", e.name),
     ("Experience", NatToString(e.experienceYears) + " years"),
     ("Skills", Join(e.skills, ListSeparator)),
     ("Past Projects", Join(e.projects, ListSeparator)),
     ("Availability", e.availability)]
  }

  /** One sentence per labelled field, `label: value.`, separated by single spaces. */
  function Describe(fields: seq<(string, string)>): string
  {
    if fields == [] then ""
    else if |fields| == 1 then fields[0].0 + ": " + fields[0].1 + "."
    else fields[0].0 + ": " + fields[0].1 + ". " + Describe(fields[1..])
  }

  /** Five labelled sentences, spelled out one after the other. */
  lemma DescribeFive(f: seq<(string, string)>)
    requires |f| == 5
    ensures Describe(f) == f[0].0 + ": " + f[0].1 + ". " + (f[1].0 + ": " + f[1].1 + ". " +
      (f[2].0 + ": " + f[2].1 + ". " + (f[3].0 + ": " + f[3].1 + ". " + (f[4].0 + ": " + f[4].1 + "."))))
  {
    var last := f[1..][1..][1..][1..];
    assert last == [f[4]];
    assert Describe(last) == f[4].0 + ": " + f[4].1 + ".";
    assert Describe(f[1..][1..][1..]) == f[3].0 + ": " + f[3].1 + ". " + Describe(last);
    assert Describe(f[1..][1..]) == f[2].0 + ": " + f[2].1 + ". " + Describe(f[1..][1..][1..]);
    assert Describe(f[1..]) == f[1].0 + ": " + f[1].1 + ". " + Describe(f[1..][1..]);
  }

  /** The content text is the five labelled sentences in their fixed order. */
  lemma ContentDescribes(name: string, experience: string, skills: string, projects: string,
                         availability: string)
    ensures Content(name, experience, skills, projects, availability) ==
      Describe([("Name", name), ("Experience", experience + " years"), ("Skills", skills),
                ("Past Projects", projects), ("Availability", availability)])
  {
    var f := [("Name", name), ("Experience", experience + " years"), ("Skills", skills),
              ("Past Projects", projects), ("Availability", availability)];
    DescribeFive(f);
    assert "Name" + ": " == "Name: ";
    assert "Experience" + ": " == "Experience: ";
    assert "Skills" + ": " == "Skills: ";
    assert "Past Projects" + ": " == "Past Projects: ";
    assert "Availability" + ": " == "Availability: ";
    assert "Experience: " + (experience + " years") + ". " == "Experience: " + experience + " years. ";
  }

  /** The metadata dictionary: exactly the keys `id` and `name`. */
  function Metadata(e: Employee): (m: map<string, string>)
    ensures m.Keys == {"id", "name"}
    ensures m["id"] == e.id && m["name"] == e.name
  {
    map["id" := e.id, "name" := e.name]
  }

  /**
   * The document built for one complete employee: its text describes the
   * employee's fields, and its metadata holds exactly the id and the name.
   */
  function ToDocument(e: Employee): (d: Document)
    ensures d.pageContent == Describe(Fields(e))
    ensures d.metadata.Keys == {"id", "name"} && d.metadata["id"] == e.id && d.metadata["name"] == e.name
  {
    Document(Render(e), Metadata(e))
  }

  /**
   * The documents of a list of employee dictionaries, or the error of the
   * first one that misses a key. Stated from the end of the list so that it
   * follows the loader's left-to-right loop.
   */
  function DocsOf(es: seq<RawEmployee>): (r: Result<seq<Document>, LoadError>)
    ensures r.Success? ==> |r.value| == |es|
    ensures r.Failure? ==> r.error.MissingField? && r.error.index < |es|
  {
    if es == [] then Success([])
    else
      match DocsOf(es[..|es| - 1])
      case Failure(err) => Failure(err)
      case Success(docs) =>
        match Lookup(es[|es| - 1])
        case Failure(key) => Failure(MissingField(|es| - 1, key))
        case Success(e) => Success(docs + [ToDocument(e)])
  }

  /**
   * What loading a parsed file yields: the documents, or the first missing
   * key. A file without an employee list is the only cause of
   * `MissingEmployees`.
   */
  function LoadDocuments(data: ParsedData): (r: Result<seq<Document>, LoadError>)
    ensures data.employees.None? <==> r == Failure(MissingEmployees)
    ensures r.Success? ==> |r.value| == |data.employees.value|
  {
    match data.employees
    case None => Failure(MissingEmployees)
    case Some(es) => DocsOf(es)
  }

  /** Loading succeeds exactly when every employee dictionary has every key the loader reads. */
  lemma {:induction false} DocsOfSucceeds(es: seq<RawEmployee>)
    ensures DocsOf(es).Success? <==> forall i :: 0 <= i < |es| ==> Lookup(es[i]).Success?
  {
    if es != [] {
      var init := es[..|es| - 1];
      DocsOfSucceeds(init);
      if DocsOf(es).Success? {
        forall i | 0 <= i < |es| ensures Lookup(es[i]).Success? {
          if i < |init| {
            assert es[i] == init[i];
          }
        }
      } else if DocsOf(init).Failure? {
        var i :| 0 <= i < |init| && Lookup(init[i]).Failure?;
        assert es[i] == init[i];
      }
    }
  }

  /**
   * A successful load gives one document per employee, in list order, each
   * holding that employee's rendered text and metadata.
   */
  lemma {:induction false} DocsOfShape(es: seq<RawEmployee>)
    requires DocsOf(es).Success?
    ensures |DocsOf(es).value| == |es|
    ensures forall i :: 0 <= i < |es| ==> (Lookup(es[i]).Success? &&
      DocsOf(es).value[i] == ToDocument(Lookup(es[i]).value))
  {
    if es != [] {
      var init := es[..|es| - 1];
      DocsOfShape(init);
      var docs, e := DocsOf(init).value, Lookup(es[|es| - 1]).value;
      assert DocsOf(es).value == docs + [ToDocument(e)];
      forall i | 0 <= i < |es|
        ensures Lookup(es[i]).Success? && DocsOf(es).value[i] == ToDocument(Lookup(es[i]).value)
      {
        if i < |init| {
          assert es[i] == init[i];
        }
      }
    }
  }

  /**
   * A failed load names the first employee dictionary that misses a key, and
   * the first key it misses; every earlier employee was complete.
   */
  lemma {:induction false} DocsOfFailure(es: seq<RawEmployee>)
    requires DocsOf(es).Failure?
    ensures var err := DocsOf(es).error;
      err.MissingField? && err.index < |es| && Lookup(es[err.index]) == Failure(err.field) &&
      forall j :: 0 <= j < err.index ==> Lookup(es[j]).Success?
  {
    var init := es[..|es| - 1];
    if DocsOf(init).Failure? {
      DocsOfFailure(init);
      assert forall i :: 0 <= i < |init| ==> init[i] == es[i];
    } else {
      DocsOfSucceeds(init);
      assert forall i :: 0 <= i < |init| ==> init[i] == es[i];
    }
  }

  /** Once a prefix of the list fails to load, the whole list fails with the same error. */
  lemma {:induction false} DocsOfPrefixFailure(es: seq<RawEmployee>, k: nat)
    requires k <= |es| && DocsOf(es[..k]).Failure?
    ensures DocsOf(es) == DocsOf(es[..k])
    decreases |es| - k
  {
    if k < |es| {
      assert es[..k + 1][..k] == es[..k];
      DocsOfPrefixFailure(es, k + 1);
    } else {
      assert es[..k] == es;
    }
  }

  /**
   * The loader: walks the employee list, appending one document per
   * employee, and stops at the first dictionary that misses a key. No
   * partial list is ever returned.
   */
  method LoadEmployeesAsDocuments(data: ParsedData) returns (r: Result<seq<Document>, LoadError>)
    ensures r == LoadDocuments(data)
  {
    if data.employees.None? {
      return Failure(MissingEmployees);
    }
    var employees := data.employees.value;
    var allDocuments: seq<Document> := [];
    for i := 0 to |employees|
      invariant DocsOf(employees[..i]) == Success(allDocuments)
    {
      assert employees[..i + 1][..i] == employees[..i];
      var employee := Lookup(employees[i]);
      if employee.Failure? {
        DocsOfPrefixFailure(employees, i + 1);
        return Failure(MissingField(i, employee.error));
      }
      allDocuments := allDocuments + [ToDocument(employee.value)];
    }
    assert employees[..|employees|] == employees;
    return Success(allDocuments);
  }
}
