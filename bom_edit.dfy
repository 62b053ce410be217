/** Editing one variant's bill of materials: add a component at the end,
    update the first row with a given code, delete it and renumber the rest. */
module BomEdit {
  import opened Optional
  import opened Inventory

  datatype BomError = ComponentExists | VariantNotFound | ComponentNotFound

  /** The handler's reply: the variant's new component list, or the error. */
  datatype BomReply = BomUpdated(components: seq<BomItem>) | BomRejected(error: BomError)

  type Bom = map<string, seq<BomItem>>

  /** `bom[variant] || []`: a variant without a list has no components. */
  function ComponentsOf(bom: Bom, variant: string): seq<BomItem> {
    if variant in bom then bom[variant] else []
  }

  /** `findIndex(c => c.componentCode === code)` */
  function FindComponent(items: seq<BomItem>, code: string): Option<nat> {
    FindFirst(items, (c: BomItem) => c.componentCode == code)
  }

  /** `seq` runs 1..N in list order. */
  predicate Dense(items: seq<BomItem>) {
    forall i :: 0 <= i < |items| ==> items[i].seqNo == i + 1
  }

  /** Two rows are the same row, whatever their `seq`. */
  predicate SameRow(a: BomItem, b: BomItem) {
    a.(seqNo := 0) == b.(seqNo := 0)
  }

  /** `items.map((item, index) => ({...item, seq: index + 1}))` */
  function Resequence(items: seq<BomItem>): (r: seq<BomItem>)
    ensures |r| == |items| && Dense(r)
    ensures forall i :: 0 <= i < |r| ==> SameRow(r[i], items[i])
  {
    seq(|items|, i requires 0 <= i < |items| => items[i].(seqNo := i + 1))
  }

  /** `POST /api/bom/:variant/component`: a code already present is refused;
      otherwise the row is appended with `seq` one past the list's length (a
      missing variant starts as an empty list). */
  function AddComponent(bom: Bom, variant: string, code: string, name: string, quantity: string): (r: (Bom, BomReply))
    ensures r.1.BomRejected? ==> r.0 == bom && r.1.error == ComponentExists
    ensures r.1.BomUpdated? ==> r.0 == bom[variant := r.1.components]
                                && |r.1.components| == |ComponentsOf(bom, variant)| + 1
  {
    var items := ComponentsOf(bom, variant);
    if FindComponent(items, code).Some? then (bom, BomRejected(ComponentExists))
    else
      var items' := items + [BomItem(|items| + 1, code, name, quantity)];
      (bom[variant := items'], BomUpdated(items'))
  }

  /** `PUT /api/bom/:variant/component/:componentCode`: the first row with the
      code gets the new name (unless it is empty) and the new quantity (when one
      is given). */
  function UpdateComponent(bom: Bom, variant: string, code: string, name: string, quantity: Option<string>): (r: (Bom, BomReply))
    ensures r.1.BomRejected? ==> r.0 == bom
    ensures r.1.BomUpdated? ==> variant in bom && r.0 == bom[variant := r.1.components]
                                && |r.1.components| == |bom[variant]|
  {
    if variant !in bom then (bom, BomRejected(VariantNotFound))
    else match FindComponent(bom[variant], code)
      case None => (bom, BomRejected(ComponentNotFound))
      case Some(i) =>
        var c := bom[variant][i];
        var c' := c.(componentName := if name == "" then c.componentName else name,
                     quantity := if quantity.Some? then quantity.value else c.quantity);
        var items' := bom[variant][i := c'];
        (bom[variant := items'], BomUpdated(items'))
  }

  /** `DELETE /api/bom/:variant/component/:componentCode`: the first row with
      the code is spliced out and the rest renumbered. */
  function DeleteComponent(bom: Bom, variant: string, code: string): (r: (Bom, BomReply))
    ensures r.1.BomRejected? ==> r.0 == bom
    ensures r.1.BomUpdated? ==> variant in bom && r.0 == bom[variant := r.1.components]
                                && |r.1.components| + 1 == |bom[variant]| && Dense(r.1.components)
  {
    if variant !in bom then (bom, BomRejected(VariantNotFound))
    else match FindComponent(bom[variant], code)
      case None => (bom, BomRejected(ComponentNotFound))
      case Some(i) =>
        var items' := Resequence(bom[variant][..i] + bom[variant][i + 1..]);
        (bom[variant := items'], BomUpdated(items'))
  }

  /** Adding refuses a duplicate code and otherwise appends exactly one row
      numbered one past the old length, touching no other variant; a densely
      numbered list stays dense. */
  lemma AddSpec(bom: Bom, variant: string, code: string, name: string, quantity: string)
    ensures var (r, reply) := AddComponent(bom, variant, code, name, quantity);
      var items := ComponentsOf(bom, variant);
      && ((exists j :: 0 <= j < |items| && items[j].componentCode == code) ==>
            r == bom && reply == BomRejected(ComponentExists))
      && ((forall j :: 0 <= j < |items| ==> items[j].componentCode != code) ==>
            && variant in r && r[variant][..|items|] == items && |r[variant]| == |items| + 1
            && r[variant][|items|] == BomItem(|items| + 1, code, name, quantity)
            && reply == BomUpdated(r[variant])
            && (forall v :: v in bom && v != variant ==> v in r && r[v] == bom[v])
            && (Dense(items) ==> Dense(r[variant])))
  {
    var items := ComponentsOf(bom, variant);
    if forall j :: 0 <= j < |items| ==> items[j].componentCode != code {
      assert FindComponent(items, code).None?;
      assert (items + [BomItem(|items| + 1, code, name, quantity)])[..|items|] == items;
    }
  }

  /** Updating changes only the name and quantity of the first row with the
      code; a missing variant or code changes nothing. */
  lemma UpdateSpec(bom: Bom, variant: string, code: string, name: string, quantity: Option<string>)
    ensures var (r, reply) := UpdateComponent(bom, variant, code, name, quantity);
      && (variant !in bom ==> r == bom && reply == BomRejected(VariantNotFound))
      && (variant in bom && FindComponent(bom[variant], code).None? ==>
            r == bom && reply == BomRejected(ComponentNotFound)
            && forall j :: 0 <= j < |bom[variant]| ==> bom[variant][j].componentCode != code)
      && (variant in bom && FindComponent(bom[variant], code).Some? ==>
            var i := FindComponent(bom[variant], code).value;
            var c := bom[variant][i];
            && bom[variant][i].componentCode == code
            && (forall j :: 0 <= j < i ==> bom[variant][j].componentCode != code)
            && r.Keys == bom.Keys
            && (forall v :: v in bom && v != variant ==> r[v] == bom[v])
            && |r[variant]| == |bom[variant]|
            && (forall j :: 0 <= j < |bom[variant]| && j != i ==> r[variant][j] == bom[variant][j])
            && r[variant][i].seqNo == c.seqNo && r[variant][i].componentCode == code
            && r[variant][i].componentName == (if name == "" then c.componentName else name)
            && r[variant][i].quantity == (if quantity.Some? then quantity.value else c.quantity)
            && reply == BomUpdated(r[variant]))
  {
  }

  /** Deleting removes the first row with the code, keeps the other rows in
      their relative order and leaves `seq` equal to 1..N; a missing variant or
      code changes nothing. */
  lemma DeleteSpec(bom: Bom, variant: string, code: string)
    ensures var (r, reply) := DeleteComponent(bom, variant, code);
      && (variant !in bom ==> r == bom && reply == BomRejected(VariantNotFound))
      && (variant in bom && FindComponent(bom[variant], code).None? ==>
            r == bom && reply == BomRejected(ComponentNotFound))
      && (variant in bom && FindComponent(bom[variant], code).Some? ==>
            var items := bom[variant];
            var i := FindComponent(items, code).value;
            && items[i].componentCode == code
            && (forall j :: 0 <= j < i ==> items[j].componentCode != code)
            && r.Keys == bom.Keys
            && (forall v :: v in bom && v != variant ==> r[v] == bom[v])
            && |r[variant]| == |items| - 1 && Dense(r[variant])
            && (forall j :: 0 <= j < i ==> SameRow(r[variant][j], items[j]))
            && (forall j :: i <= j < |r[variant]| ==> SameRow(r[variant][j], items[j + 1]))
            && reply == BomUpdated(r[variant]))
  {
    if variant in bom && FindComponent(bom[variant], code).Some? {
      var items := bom[variant];
      var i := FindComponent(items, code).value;
      var rest := items[..i] + items[i + 1..];
      assert forall j :: 0 <= j < i ==> rest[j] == items[j];
      assert forall j :: i <= j < |rest| ==> rest[j] == items[j + 1];
    }
  }

  /** Renumbering a densely numbered list changes nothing. */
  lemma ResequenceDense(items: seq<BomItem>)
    requires Dense(items)
    ensures Resequence(items) == items
  {
    assert forall i :: 0 <= i < |items| ==> Resequence(items)[i] == items[i];
  }

  /** A code absent from a list is found at the row appended with it. */
  lemma FindAppended(items: seq<BomItem>, row: BomItem)
    requires FindComponent(items, row.componentCode).None?
    ensures FindComponent(items + [row], row.componentCode) == Some(|items|)
  {
    var s := items + [row];
    assert forall j :: 0 <= j < |items| ==> s[j] == items[j];
    assert s[|items|] == row;
  }

  /** Adding a code the list lacks appends its row. */
  lemma AddNew(bom: Bom, variant: string, code: string, name: string, quantity: string)
    requires FindComponent(ComponentsOf(bom, variant), code).None?
    ensures var items := ComponentsOf(bom, variant);
      var items' := items + [BomItem(|items| + 1, code, name, quantity)];
      AddComponent(bom, variant, code, name, quantity) == (bom[variant := items'], BomUpdated(items'))
  {
  }

  /** Deleting a code found at `i` splices row `i` out and renumbers. */
  lemma DeleteFound(bom: Bom, variant: string, code: string, i: nat)
    requires variant in bom && FindComponent(bom[variant], code) == Some(i)
    ensures var items' := Resequence(bom[variant][..i] + bom[variant][i + 1..]);
      DeleteComponent(bom, variant, code) == (bom[variant := items'], BomUpdated(items'))
  {
  }

  /** Adding a new component and then deleting it gives back the variant's
      list (an empty one for a variant that had none) when it was densely
      numbered. */
  lemma AddThenDelete(bom: Bom, variant: string, code: string, name: string, quantity: string)
    requires Dense(ComponentsOf(bom, variant))
    requires FindComponent(ComponentsOf(bom, variant), code).None?
    ensures DeleteComponent(AddComponent(bom, variant, code, name, quantity).0, variant, code)
            == (bom[variant := ComponentsOf(bom, variant)], BomUpdated(ComponentsOf(bom, variant)))
  {
    var items := ComponentsOf(bom, variant);
    var row := BomItem(|items| + 1, code, name, quantity);
    var items' := items + [row];
    var added := bom[variant := items'];
    AddNew(bom, variant, code, name, quantity);
    assert FindComponent(added[variant], code) == Some(|items|) by {
      FindAppended(items, row);
    }
    assert Resequence(items'[..|items|] + items'[|items| + 1..]) == items by {
      assert items'[..|items|] + items'[|items| + 1..] == items;
      ResequenceDense(items);
    }
    DeleteFound(added, variant, code, |items|);
    assert added[variant := items] == bom[variant := items];
  }
}
