/**
 * The datastore property stream that `Account.Load` and `Account.Save`
 * exchange (transaction/account_pls.go). The channel of properties is a
 * finite sequence; a property value is typed, a string or a 64-bit integer.
 */
module Properties {
  import opened Wrappers

  datatype Value = StringValue(str: string) | Int64Value(int64: int)

  datatype Property = Property(name: string, value: Value)

  /** The persisted fields of an Account: its name and its running total. */
  datatype Fields = Fields(name: string, total: int)

  /** The error `Load` records for a property it does not know. */
  datatype LoadError = UnexpectedProperty(name: string)

  function LoadErrorMessage(e: LoadError): string {
    "Unexpected property type " + e.name
  }

  /** The outcome of loading: the fields reached and the error recorded, if any. */
  datatype Loaded = Loaded(fields: Fields, err: Option<LoadError>)

  predicate Known(p: Property) {
    p.name == "Name" || p.name == "Total"
  }

  /**
   * Each "Name" property carries a string and each "Total" property an
   * integer; otherwise `Load`'s type assertion would panic.
   */
  predicate WellTyped(props: seq<Property>) {
    forall i :: 0 <= i < |props| ==> PropertyWellTyped(props[i])
  }

  predicate PropertyWellTyped(p: Property) {
    (p.name == "Name" ==> p.value.StringValue?) && (p.name == "Total" ==> p.value.Int64Value?)
  }

  /** One step of `Load`: the effect of a single property. */
  function Apply(l: Loaded, p: Property): Loaded
    requires PropertyWellTyped(p)
  {
    if p.name == "Name" then l.(fields := l.fields.(name := p.value.str))
    else if p.name == "Total" then l.(fields := l.fields.(total := p.value.int64))
    else l.(err := Some(UnexpectedProperty(p.name)))
  }

  /** `Load` over a whole stream, from the fields the Account had before. */
  function LoadAll(props: seq<Property>, init: Fields): Loaded
    requires WellTyped(props)
  {
    if |props| == 0 then Loaded(init, None)
    else Apply(LoadAll(props[..|props| - 1], init), props[|props| - 1])
  }

  /** What `Save` emits, in order. */
  function SavedProperties(f: Fields): seq<Property> {
    [Property("Name", StringValue(f.name)), Property("Total", Int64Value(f.total))]
  }

  lemma PrefixWellTyped(props: seq<Property>, n: nat)
    requires WellTyped(props) && n <= |props|
    ensures WellTyped(props[..n])
  {
    assert forall i :: 0 <= i < n ==> props[..n][i] == props[i];
  }

  /** The Name reached is that of the last "Name" property. */
  lemma {:induction false} LoadLastName(props: seq<Property>, init: Fields, k: nat)
    requires WellTyped(props) && k < |props| && props[k].name == "Name"
    requires forall j :: k < j < |props| ==> props[j].name != "Name"
    ensures LoadAll(props, init).fields.name == props[k].value.str
  {
    var n := |props| - 1;
    PrefixWellTyped(props, n);
    if k < n {
      var p := props[..n];
      assert forall j :: k < j < |p| ==> p[j] == props[j];
      LoadLastName(p, init, k);
    }
  }

  /** With no "Name" property, the Name is left as it was. */
  lemma {:induction false} LoadKeepsName(props: seq<Property>, init: Fields)
    requires WellTyped(props)
    requires forall j :: 0 <= j < |props| ==> props[j].name != "Name"
    ensures LoadAll(props, init).fields.name == init.name
  {
    if |props| > 0 {
      var n := |props| - 1;
      PrefixWellTyped(props, n);
      var p := props[..n];
      assert forall j :: 0 <= j < |p| ==> p[j] == props[j];
      LoadKeepsName(p, init);
    }
  }

  /** The total reached is that of the last "Total" property. */
  lemma {:induction false} LoadLastTotal(props: seq<Property>, init: Fields, k: nat)
    requires WellTyped(props) && k < |props| && props[k].name == "Total"
    requires forall j :: k < j < |props| ==> props[j].name != "Total"
    ensures LoadAll(props, init).fields.total == props[k].value.int64
  {
    var n := |props| - 1;
    PrefixWellTyped(props, n);
    if k < n {
      var p := props[..n];
      assert forall j :: k < j < |p| ==> p[j] == props[j];
      LoadLastTotal(p, init, k);
    }
  }

  /** With no "Total" property, the total is left as it was. */
  lemma {:induction false} LoadKeepsTotal(props: seq<Property>, init: Fields)
    requires WellTyped(props)
    requires forall j :: 0 <= j < |props| ==> props[j].name != "Total"
    ensures LoadAll(props, init).fields.total == init.total
  {
    if |props| > 0 {
      var n := |props| - 1;
      PrefixWellTyped(props, n);
      var p := props[..n];
      assert forall j :: 0 <= j < |p| ==> p[j] == props[j];
      LoadKeepsTotal(p, init);
    }
  }

  /** Load reports no error exactly when every property is "Name" or "Total". */
  lemma {:induction false} LoadNoError(props: seq<Property>, init: Fields)
    requires WellTyped(props)
    ensures LoadAll(props, init).err == None <==> forall j :: 0 <= j < |props| ==> Known(props[j])
  {
    if |props| > 0 {
      var n := |props| - 1;
      PrefixWellTyped(props, n);
      var p := props[..n];
      assert forall j :: 0 <= j < |p| ==> p[j] == props[j];
      LoadNoError(p, init);
      if !Known(props[n]) {
        assert LoadAll(props, init).err != None;
      }
    }
  }

  /**
   * The error recorded names the last unknown property: an unknown property
   * does not stop the stream, and a later unknown one replaces the error.
   */
  lemma {:induction false} LoadLastError(props: seq<Property>, init: Fields, k: nat)
    requires WellTyped(props) && k < |props| && !Known(props[k])
    requires forall j :: k < j < |props| ==> Known(props[j])
    ensures LoadAll(props, init).err == Some(UnexpectedProperty(props[k].name))
    ensures LoadErrorMessage(LoadAll(props, init).err.value) == "Unexpected property type " + props[k].name
  {
    var n := |props| - 1;
    PrefixWellTyped(props, n);
    if k < n {
      var p := props[..n];
      assert forall j :: k < j < |p| ==> p[j] == props[j];
      LoadLastError(p, init, k);
    }
  }

  /** Loading what was saved gives back the fields, whatever they were before, and no error. */
  lemma LoadOfSave(f: Fields, init: Fields)
    ensures LoadAll(SavedProperties(f), init) == Loaded(f, None)
  {
    var props := SavedProperties(f);
    var first := props[..1];
    assert first[..0] == [];
    assert LoadAll(first, init) == Loaded(init.(name := f.name), None);
    assert LoadAll(props, init) == Apply(LoadAll(first, init), props[1]);
  }
}
