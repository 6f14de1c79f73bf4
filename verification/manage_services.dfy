/** The admin services page (`ManageServices`): the service form with its
    create/update submit, the comma-separated features text it parses on
    submit and rebuilds on edit, and the confirm-gated delete. */
module ManageServices {

  import opened Common
  import opened JsStrings
  import Seqs

  /** `.map(f => f.trim())`. */
  function TrimEach(pieces: seq<string>): (r: seq<string>)
    ensures |r| == |pieces|
    ensures forall i :: 0 <= i < |r| ==> r[i] == Trim(pieces[i])
  {
    if pieces == [] then [] else [Trim(pieces[0])] + TrimEach(pieces[1..])
  }

  /** `.filter(Boolean)` on strings: the empty ones are dropped, the rest
      kept in order. */
  function DropEmpty(pieces: seq<string>): (r: seq<string>)
    ensures |r| <= |pieces|
    ensures forall i :: 0 <= i < |r| ==> r[i] != "" && r[i] in pieces
    ensures forall i :: 0 <= i < |pieces| && pieces[i] != "" ==> pieces[i] in r
  {
    if pieces == [] then []
    else if pieces[0] == "" then DropEmpty(pieces[1..])
    else [pieces[0]] + DropEmpty(pieces[1..])
  }

  /** The condition `.filter(Boolean)` applies to a string. */
  predicate NonEmpty(piece: string) {
    piece != ""
  }

  /** `DropEmpty` is the general filter with that condition, so it keeps the
      non-empty pieces in order and with their multiplicity. */
  lemma {:induction false} DropEmptyIsFilter(pieces: seq<string>)
    ensures DropEmpty(pieces) == Seqs.Filter(NonEmpty, pieces)
  {
    if pieces != [] {
      DropEmptyIsFilter(pieces[1..]);
    }
  }

  /** Dropping the empty pieces of two halves drops them from the whole:
      the order of the features survives. */
  lemma {:induction false} DropEmptyAppend(a: seq<string>, b: seq<string>)
    ensures DropEmpty(a + b) == DropEmpty(a) + DropEmpty(b)
  {
    DropEmptyIsFilter(a);
    DropEmptyIsFilter(b);
    DropEmptyIsFilter(a + b);
    Seqs.FilterAppend(NonEmpty, a, b);
  }

  /** What the features list holds after a save: non-empty, trimmed, and
      free of the separator. */
  predicate IsFeature(f: string) {
    f != "" && IsTrimmed(f) && ',' !in f
  }

  /** `formData.features.split(',').map(f => f.trim()).filter(Boolean)`. */
  function ParseFeatures(text: string): (fs: seq<string>)
    ensures forall i :: 0 <= i < |fs| ==> IsFeature(fs[i])
  {
    var pieces := Split(text, ',');
    var trimmed := TrimEach(pieces);
    forall i | 0 <= i < |trimmed| ensures ',' !in trimmed[i] {
      assert ',' !in pieces[i];
    }
    DropEmpty(trimmed)
  }

  /** `service.features?.join(', ') || ''`, the text `handleEdit` puts in
      the form. */
  function FeaturesText(features: Option<seq<string>>): string {
    OrElse(if features.Some? then Some(Join(features.value, ", ")) else None, "")
  }

  /** A space after a comma does not change the parsed list. */
  lemma {:induction false} ParseSkipsLeadingSpace(s: string)
    ensures ParseFeatures(" " + s) == ParseFeatures(s)
  {
    SplitCons(' ', s, ',');
    var a := Split(" " + s, ',');
    var b := Split(s, ',');
    assert |a| == |b| && a[1..] == b[1..] && a[0] == " " + b[0];
    TrimSkipsLeadingSpace(b[0]);
    assert TrimEach(a) == TrimEach(b);
  }

  /** The first piece before a comma parses on its own. */
  lemma {:induction false} ParseAtComma(f: string, rest: string)
    requires IsFeature(f)
    ensures ParseFeatures(f + [','] + rest) == [f] + ParseFeatures(rest)
  {
    SplitAtSeparator(f, ',', rest);
    var pieces := Split(rest, ',');
    assert Split(f + [','] + rest, ',') == [f] + pieces;
    assert TrimEach([f] + pieces) == [f] + TrimEach(pieces);
    assert ([f] + TrimEach(pieces))[1..] == TrimEach(pieces);
  }

  /** The empty text and a single feature parse as expected. */
  lemma ParseShort(f: string)
    requires IsFeature(f)
    ensures ParseFeatures("") == []
    ensures ParseFeatures(f) == [f]
  {
    assert Split("", ',') == [""];
    assert TrimEach([""]) == [""];
    SplitWithoutSeparator(f, ',');
    assert TrimEach([f]) == [f];
  }

  /** Joining with ", " puts a comma and a space between features. */
  lemma JoinStep(fs: seq<string>)
    requires |fs| >= 2
    ensures Join(fs, ", ") == fs[0] + [','] + (" " + Join(fs[1..], ", "))
  {
  }

  /** One step of the round trip: a proper feature in front of a list that
      already round-trips. */
  lemma ParseJoinStep(fs: seq<string>)
    requires |fs| >= 2 && IsFeature(fs[0])
    requires ParseFeatures(Join(fs[1..], ", ")) == fs[1..]
    ensures ParseFeatures(Join(fs, ", ")) == fs
  {
    var tail := Join(fs[1..], ", ");
    JoinStep(fs);
    ParseAtComma(fs[0], " " + tail);
    ParseSkipsLeadingSpace(tail);
    assert [fs[0]] + fs[1..] == fs;
  }

  /** Parsing inverts joining with ", " on a list of proper features. */
  lemma {:induction false} ParseJoin(fs: seq<string>)
    requires forall i :: 0 <= i < |fs| ==> IsFeature(fs[i])
    ensures ParseFeatures(Join(fs, ", ")) == fs
  {
    if fs == [] {
      ParseJoinEmpty();
    } else if |fs| == 1 {
      ParseJoinSingle(fs[0]);
      assert fs == [fs[0]];
    } else {
      ParseJoin(fs[1..]);
      ParseJoinStep(fs);
    }
  }

  /** The round trip on no feature. */
  lemma ParseJoinEmpty()
    ensures ParseFeatures(Join([], ", ")) == []
  {
    ParseShort("x");
    assert Join([], ", ") == "";
  }

  /** The round trip on one feature. */
  lemma ParseJoinSingle(f: string)
    requires IsFeature(f)
    ensures ParseFeatures(Join([f], ", ")) == [f]
  {
    ParseShort(f);
    assert Join([f], ", ") == f;
  }

  /** Round trip: for a list of proper features, the text `handleEdit` puts in
      the form parses back to the same list on submit. */
  lemma FeaturesRoundTrip(fs: seq<string>)
    requires forall i :: 0 <= i < |fs| ==> IsFeature(fs[i])
    ensures ParseFeatures(FeaturesText(Some(fs))) == fs
  {
    ParseJoin(fs);
    assert FeaturesText(Some(fs)) == Join(fs, ", ");
  }

  /** Editing a service and saving it unchanged normalises its features once
      and for all: a second edit-and-save changes nothing. */
  lemma ParseIdempotent(text: string)
    ensures ParseFeatures(FeaturesText(Some(ParseFeatures(text)))) == ParseFeatures(text)
  {
    FeaturesRoundTrip(ParseFeatures(text));
  }

  /** A service as `GET /services` returns it. */
  datatype Service = Service(
    id: string,
    name: string,
    cost: int,
    unit: string,
    category: string,
    description: string,
    image: Option<string>,
    features: Option<seq<string>>)

  /** The body of `POST /services` and `PUT /services/{id}`. `cost` is `None`
      where the source sends `NaN` (an empty cost field). */
  datatype ServiceData = ServiceData(
    name: string,
    cost: Option<int>,
    unit: string,
    category: string,
    description: string,
    image: string,
    features: seq<string>,
    createdByEmail: Option<string>)

  datatype ServiceMutation = Create(data: ServiceData) | Update(id: string, data: ServiceData)

  /** The options of the required category select. */
  const CategoryOptions: seq<string> := ["wedding", "home", "office", "seminar", "meeting"]

  /** The select also shows a "Select category" placeholder with value "",
      which `required` refuses. */
  function CategoryAccepted(value: string): (ok: bool)
    ensures ok <==> value in {"wedding", "home", "office", "seminar", "meeting"}
  {
    value != "" && value in [""] + CategoryOptions
  }

  /** `handleDelete`: the delete goes out only after a yes. */
  function DeleteRequest(id: string, confirmed: bool): (r: Option<string>)
    ensures r.Some? <==> confirmed
    ensures r.Some? ==> r.value == id
  {
    if confirmed then Some(id) else None
  }

  /** The form's state fields. `cost` is `None` for the empty field. */
  class ServiceForm {
    var name: string
    var cost: Option<int>
    var unit: string
    var category: string
    var description: string
    var image: string
    var features: string
    var editing: Option<Service>
    var showModal: bool

    predicate IsBlank()
      reads this
    {
      name == "" && cost.None? && unit == "" && category == "" &&
      description == "" && image == "" && features == "" && editing.None?
    }

    constructor ()
      ensures IsBlank() && !showModal
    {
      name, cost, unit, category, description, image, features := "", None, "", "", "", "", "";
      editing, showModal := None, false;
    }

    /** `resetForm`: all seven fields blank and nothing being edited. */
    method ResetForm()
      modifies this`name, this`cost, this`unit, this`category, this`description,
               this`image, this`features, this`editing
      ensures IsBlank()
    {
      name, cost, unit, category, description, image, features := "", None, "", "", "", "", "";
      editing := None;
    }

    /** "Add Service": a blank form in the open modal. */
    method OpenForCreate()
      modifies this
      ensures IsBlank() && showModal
    {
      ResetForm();
      showModal := true;
    }

    /** The button of the empty list opens the modal without resetting the
        form, so whatever it last held is shown again. */
    method OpenAsIs()
      modifies this`showModal
      ensures showModal
    {
      showModal := true;
    }

    /** `handleEdit`: the service becomes the one being edited and its fields
        are copied into the form, with "" for a missing image and the joined
        text for the features. */
    method HandleEdit(s: Service)
      modifies this
      ensures editing == Some(s) && showModal
      ensures name == s.name && cost == Some(s.cost) && unit == s.unit
      ensures category == s.category && description == s.description
      ensures image == OrElse(s.image, "") && features == FeaturesText(s.features)
    {
      editing := Some(s);
      name, cost, unit, category, description := s.name, Some(s.cost), s.unit, s.category, s.description;
      image := OrElse(s.image, "");
      features := FeaturesText(s.features);
      showModal := true;
    }

    /** The data `handleSubmit` sends for the current form. */
    function SubmittedData(userEmail: Option<string>): (d: ServiceData)
      reads this
      ensures forall i :: 0 <= i < |d.features| ==> IsFeature(d.features[i])
      ensures d.features == ParseFeatures(features) && d.createdByEmail == userEmail
    {
      ServiceData(name, cost, unit, category, description, image, ParseFeatures(features), userEmail)
    }

    /** The category select: any of its options, the placeholder "" included. */
    method SelectCategory(value: string)
      requires value in [""] + CategoryOptions
      modifies this`category
      ensures category == value
      ensures CategoryAccepted(category) <==> value != ""
    {
      category := value;
    }

    /** `handleSubmit`: an update of the edited service's id when editing,
        otherwise a create, never both; it changes no state itself. The
        select's `required` stops the submit before the handler while the
        category is not one of the five options. */
    method HandleSubmit(userEmail: Option<string>) returns (m: ServiceMutation)
      requires CategoryAccepted(category)
      ensures m.Update? <==> editing.Some?
      ensures m.Update? ==> m.id == editing.value.id
      ensures m.data == SubmittedData(userEmail)
      ensures m.data.category in CategoryOptions
    {
      var data := SubmittedData(userEmail);
      if editing.Some? {
        m := Update(editing.value.id, data);
      } else {
        m := Create(data);
      }
    }

    /** The create and update mutations' `onSuccess`, and the Cancel button:
        the modal closes and the form is reset. */
    method CloseAndReset()
      modifies this
      ensures IsBlank() && !showModal
    {
      showModal := false;
      ResetForm();
    }
  }
}
