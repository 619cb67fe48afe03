/** Writing a card nonce as a row (`createSpec`) and reading a row back (`scanValues`,
    `assignValues`). */
module RowMapping {
  import opened Prelude

  type Bytes = seq<bv8>

  /** The columns of `card_server_nonces`; `Other` is any column a modifier adds. */
  datatype Column =
    | Id | CreatedAt | UpdatedAt | Nonce | Tier | Amount | Currency | ExpiresAt
    | ConsumedAt | StepUpGrantedAt | SenderKey | CardKey | Other(name: string)

  /** A stored value. Times are instants; the zero time is 0. */
  datatype Value = Null | Uuid(uuid: string) | Time(time: int) | Text(text: string) | Blob(bytes: Bytes)

  /** A scan destination and what it holds. */
  datatype Dest =
    | UuidDest(uuid: string)
    | NullTime(time: Option<int>)
    | NullString(text: Option<string>)
    | BytesDest(bytes: Bytes)
    | NullScanner(key: Option<string>)
    | UnknownType(raw: Value)

  datatype Error = Mismatch(values: nat, columns: nat) | UnexpectedType(column: Column) | CannotScan

  /** The fields of the entity, as a value. */
  datatype Entity = Entity(
    id: string, createdAt: int, updatedAt: int, nonce: Bytes, tier: string, amount: string,
    currency: string, expiresAt: int, consumedAt: Option<int>, stepUpGrantedAt: Option<int>,
    senderKey: Option<string>, cardKey: Option<string>,
    selected: map<string, Dest>)

  const ZERO: Entity := Entity("", 0, 0, [], "", "", "", 0, None, None, None, None, map[])

  /** What a create builder has been given. Edge ids are lists, of which the first counts. */
  datatype Mutation = Mutation(
    id: Option<string>, createdAt: Option<int>, updatedAt: Option<int>, nonce: Option<Bytes>,
    tier: Option<string>, amount: Option<string>, currency: Option<string>, expiresAt: Option<int>,
    consumedAt: Option<int>, stepUpGrantedAt: Option<int>,
    senderIds: seq<string>, cardIds: seq<string>)
  {
    /** The value given for a column, if any. */
    function Given(c: Column): Option<Value> {
      match c
      case Id => Lift(id, x => Uuid(x))
      case CreatedAt => Lift(createdAt, x => Time(x))
      case UpdatedAt => Lift(updatedAt, x => Time(x))
      case Nonce => Lift(nonce, x => Blob(x))
      case Tier => Lift(tier, x => Text(x))
      case Amount => Lift(amount, x => Text(x))
      case Currency => Lift(currency, x => Text(x))
      case ExpiresAt => Lift(expiresAt, x => Time(x))
      case ConsumedAt => Lift(consumedAt, x => Time(x))
      case StepUpGrantedAt => Lift(stepUpGrantedAt, x => Time(x))
      case SenderKey => if senderIds == [] then None else Some(Uuid(senderIds[0]))
      case CardKey => if cardIds == [] then None else Some(Uuid(cardIds[0]))
      case Other(_) => None
    }
  }

  function Lift<T>(x: Option<T>, f: T -> Value): Option<Value> {
    if x.Some? then Some(f(x.value)) else None
  }

  /** One field of an entity, as the value its column would store. */
  function FieldOf(e: Entity, c: Column): Value {
    match c
    case Id => Uuid(e.id)
    case CreatedAt => Time(e.createdAt)
    case UpdatedAt => Time(e.updatedAt)
    case Nonce => Blob(e.nonce)
    case Tier => Text(e.tier)
    case Amount => Text(e.amount)
    case Currency => Text(e.currency)
    case ExpiresAt => Time(e.expiresAt)
    case ConsumedAt => Lift(e.consumedAt, x => Time(x)).GetOr(Null)
    case StepUpGrantedAt => Lift(e.stepUpGrantedAt, x => Time(x)).GetOr(Null)
    case SenderKey => Lift(e.senderKey, x => Uuid(x)).GetOr(Null)
    case CardKey => Lift(e.cardKey, x => Uuid(x)).GetOr(Null)
    case Other(_) => Null
  }

  /** Two entities with no dynamically selected values are equal when their fields are. */
  lemma SameFieldsSameEntity(a: Entity, b: Entity)
    requires a.selected == b.selected
    requires forall c: Column :: FieldOf(a, c) == FieldOf(b, c)
    ensures a == b
  {
    assert FieldOf(a, Id) == FieldOf(b, Id) && FieldOf(a, CreatedAt) == FieldOf(b, CreatedAt);
    assert FieldOf(a, UpdatedAt) == FieldOf(b, UpdatedAt) && FieldOf(a, Nonce) == FieldOf(b, Nonce);
    assert FieldOf(a, Tier) == FieldOf(b, Tier) && FieldOf(a, Amount) == FieldOf(b, Amount);
    assert FieldOf(a, Currency) == FieldOf(b, Currency) && FieldOf(a, ExpiresAt) == FieldOf(b, ExpiresAt);
    assert FieldOf(a, ConsumedAt) == FieldOf(b, ConsumedAt);
    assert FieldOf(a, StepUpGrantedAt) == FieldOf(b, StepUpGrantedAt);
    assert FieldOf(a, SenderKey) == FieldOf(b, SenderKey) && FieldOf(a, CardKey) == FieldOf(b, CardKey);
  }

  // ---- Reading ---------------------------------------------------------------------------

  /** `scanValues`: the destination for a column. */
  function DestFor(c: Column): Dest {
    match c
    case Nonce => BytesDest([])
    case Tier => NullString(None)
    case Amount => NullString(None)
    case Currency => NullString(None)
    case CreatedAt => NullTime(None)
    case UpdatedAt => NullTime(None)
    case ExpiresAt => NullTime(None)
    case ConsumedAt => NullTime(None)
    case StepUpGrantedAt => NullTime(None)
    case Id => UuidDest("")
    case SenderKey => NullScanner(None)
    case CardKey => NullScanner(None)
    case Other(_) => UnknownType(Null)
  }

  /** What the database driver does with one destination. */
  function Scan(d: Dest, v: Value): Result<Dest, Error> {
    match (d, v)
    case (UnknownType(_), _) => Ok(UnknownType(v))
    case (UuidDest(x), Null) => Ok(UuidDest(x))
    case (UuidDest(_), Uuid(x)) => Ok(UuidDest(x))
    case (NullTime(_), Null) => Ok(NullTime(None))
    case (NullTime(_), Time(t)) => Ok(NullTime(Some(t)))
    case (NullString(_), Null) => Ok(NullString(None))
    case (NullString(_), Text(s)) => Ok(NullString(Some(s)))
    case (BytesDest(_), Null) => Ok(BytesDest([]))
    case (BytesDest(_), Blob(b)) => Ok(BytesDest(b))
    case (NullScanner(_), Null) => Ok(NullScanner(None))
    case (NullScanner(_), Uuid(x)) => Ok(NullScanner(Some(x)))
    case _ => Err(CannotScan)
  }

  /** One turn of the loop of `assignValues`. */
  function AssignOne(e: Entity, c: Column, d: Dest): Result<Entity, Error> {
    match (c, d)
    case (Id, UuidDest(x)) => Ok(e.(id := x))
    case (CreatedAt, NullTime(t)) => Ok(e.(createdAt := t.GetOr(e.createdAt)))
    case (UpdatedAt, NullTime(t)) => Ok(e.(updatedAt := t.GetOr(e.updatedAt)))
    case (Nonce, BytesDest(b)) => Ok(e.(nonce := b))
    case (Tier, NullString(s)) => Ok(e.(tier := s.GetOr(e.tier)))
    case (Amount, NullString(s)) => Ok(e.(amount := s.GetOr(e.amount)))
    case (Currency, NullString(s)) => Ok(e.(currency := s.GetOr(e.currency)))
    case (ExpiresAt, NullTime(t)) => Ok(e.(expiresAt := t.GetOr(e.expiresAt)))
    case (ConsumedAt, NullTime(t)) => Ok(e.(consumedAt := if t.Some? then t else e.consumedAt))
    case (StepUpGrantedAt, NullTime(t)) => Ok(e.(stepUpGrantedAt := if t.Some? then t else e.stepUpGrantedAt))
    case (SenderKey, NullScanner(k)) => Ok(e.(senderKey := if k.Some? then k else e.senderKey))
    case (CardKey, NullScanner(k)) => Ok(e.(cardKey := if k.Some? then k else e.cardKey))
    case (Other(name), _) => Ok(e.(selected := e.selected[name := d]))
    case _ => Err(UnexpectedType(c))
  }

  /** `assignValues` over the first columns: it stops at the first unexpected type. */
  function AssignAll(e: Entity, columns: seq<Column>, values: seq<Dest>): (Option<Error>, Entity)
    requires |columns| <= |values|
  {
    if columns == [] then (None, e)
    else
      var n := |columns| - 1;
      var (err, e1) := AssignAll(e, columns[..n], values);
      if err.Some? then (err, e1)
      else
        match AssignOne(e1, columns[n], values[n])
        case Ok(e2) => (None, e2)
        case Err(x) => (Some(x), e1)
  }

  /** A stored row: absent columns are NULL. */
  function Stored(row: map<Column, Value>, c: Column): Value {
    if c in row then row[c] else Null
  }

  class CardServerNonce {
    var id: string
    var createdAt: int
    var updatedAt: int
    var nonce: Bytes
    var tier: string
    var amount: string
    var currency: string
    var expiresAt: int
    var consumedAt: Option<int>
    var stepUpGrantedAt: Option<int>
    var senderKey: Option<string>
    var cardKey: Option<string>
    var selected: map<string, Dest>

    constructor ()
      ensures View() == ZERO
    {
      id, createdAt, updatedAt, nonce := "", 0, 0, [];
      tier, amount, currency, expiresAt := "", "", "", 0;
      consumedAt, stepUpGrantedAt, senderKey, cardKey := None, None, None, None;
      selected := map[];
    }

    ghost function View(): Entity
      reads this
    {
      Entity(id, createdAt, updatedAt, nonce, tier, amount, currency, expiresAt, consumedAt,
             stepUpGrantedAt, senderKey, cardKey, selected)
    }

    /** `assignValues`. */
    method AssignValues(columns: seq<Column>, values: array<Dest>) returns (err: Option<Error>)
      modifies this
      ensures values.Length < |columns| ==>
                err == Some(Mismatch(values.Length, |columns|)) && View() == old(View())
      ensures values.Length >= |columns| ==> (err, View()) == AssignAll(old(View()), columns, values[..])
    {
      if values.Length < |columns| {
        return Some(Mismatch(values.Length, |columns|));
      }
      var i := 0;
      while i < |columns|
        invariant 0 <= i <= |columns|
        invariant (None, View()) == AssignAll(old(View()), columns[..i], values[..])
        invariant AssignAll(old(View()), columns[..i], values[..]).0.None?
      {
        assert columns[..i + 1][..i] == columns[..i];
        err := AssignColumn(columns[i], values[i]);
        if err.Some? {
          ErrorStays(old(View()), columns, i + 1, values[..]);
          return;
        }
        i := i + 1;
      }
      assert columns[..i] == columns;
      return None;
    }

    method AssignColumn(c: Column, d: Dest) returns (err: Option<Error>)
      modifies this
      ensures match AssignOne(old(View()), c, d)
              case Ok(e) => err == None && View() == e
              case Err(x) => err == Some(x) && View() == old(View())
    {
      match c {
      case Id =>
        if !d.UuidDest? { return Some(UnexpectedType(c)); }
        id := d.uuid;
      case CreatedAt =>
        if !d.NullTime? { return Some(UnexpectedType(c)); }
        if d.time.Some? { createdAt := d.time.value; }
      case UpdatedAt =>
        if !d.NullTime? { return Some(UnexpectedType(c)); }
        if d.time.Some? { updatedAt := d.time.value; }
      case Nonce =>
        if !d.BytesDest? { return Some(UnexpectedType(c)); }
        nonce := d.bytes;
      case Tier =>
        if !d.NullString? { return Some(UnexpectedType(c)); }
        if d.text.Some? { tier := d.text.value; }
      case Amount =>
        if !d.NullString? { return Some(UnexpectedType(c)); }
        if d.text.Some? { amount := d.text.value; }
      case Currency =>
        if !d.NullString? { return Some(UnexpectedType(c)); }
        if d.text.Some? { currency := d.text.value; }
      case ExpiresAt =>
        if !d.NullTime? { return Some(UnexpectedType(c)); }
        if d.time.Some? { expiresAt := d.time.value; }
      case ConsumedAt =>
        if !d.NullTime? { return Some(UnexpectedType(c)); }
        if d.time.Some? { consumedAt := d.time; }
      case StepUpGrantedAt =>
        if !d.NullTime? { return Some(UnexpectedType(c)); }
        if d.time.Some? { stepUpGrantedAt := d.time; }
      case SenderKey =>
        if !d.NullScanner? { return Some(UnexpectedType(c)); }
        if d.key.Some? { senderKey := d.key; }
      case CardKey =>
        if !d.NullScanner? { return Some(UnexpectedType(c)); }
        if d.key.Some? { cardKey := d.key; }
      case Other(name) =>
        selected := selected[name := d];
      }
      return None;
    }
  }

  lemma {:induction false} ErrorStays(e: Entity, columns: seq<Column>, n: nat, values: seq<Dest>)
    requires n <= |columns| <= |values| && AssignAll(e, columns[..n], values).0.Some?
    ensures AssignAll(e, columns, values) == AssignAll(e, columns[..n], values)
    decreases |columns|
  {
    if n < |columns| {
      var front := columns[..|columns| - 1];
      assert front[..n] == columns[..n];
      ErrorStays(e, front, n, values);
    } else {
      assert columns[..n] == columns;
    }
  }

  /** Every error of `assignValues` is that of the first unexpected type, and what came before
      it has been assigned. */
  lemma FirstUnexpectedStops(e: Entity, columns: seq<Column>, values: seq<Dest>, n: nat)
    requires n < |columns| <= |values| && AssignAll(e, columns[..n], values).0.None?
    requires Unexpected(columns[n], values[n])
    ensures AssignAll(e, columns, values) == (Some(UnexpectedType(columns[n])), AssignAll(e, columns[..n], values).1)
  {
    assert columns[..n + 1][..n] == columns[..n];
    assert AssignAll(e, columns[..n + 1], values).0 == Some(UnexpectedType(columns[n]));
    ErrorStays(e, columns, n + 1, values);
  }

  /** The destination is not of the type that the column needs. */
  predicate Unexpected(c: Column, d: Dest) {
    match c
    case Id => !d.UuidDest?
    case Nonce => !d.BytesDest?
    case Tier => !d.NullString?
    case Amount => !d.NullString?
    case Currency => !d.NullString?
    case SenderKey => !d.NullScanner?
    case CardKey => !d.NullScanner?
    case Other(_) => false
    case _ => !d.NullTime?
  }

  lemma UnexpectedIff(e: Entity, c: Column, d: Dest)
    ensures AssignOne(e, c, d).Err? <==> Unexpected(c, d)
    ensures AssignOne(e, c, d).Err? ==> AssignOne(e, c, d).error == UnexpectedType(c)
  {
  }

  /** Each column sets its own field. */
  lemma AssignTable(e: Entity, x: string, t: int, b: Bytes)
    ensures AssignOne(e, Id, UuidDest(x)) == Ok(e.(id := x)) && AssignOne(e, Nonce, BytesDest(b)) == Ok(e.(nonce := b))
    ensures AssignOne(e, CreatedAt, NullTime(Some(t))) == Ok(e.(createdAt := t))
    ensures AssignOne(e, UpdatedAt, NullTime(Some(t))) == Ok(e.(updatedAt := t))
    ensures AssignOne(e, ExpiresAt, NullTime(Some(t))) == Ok(e.(expiresAt := t))
    ensures AssignOne(e, ConsumedAt, NullTime(Some(t))) == Ok(e.(consumedAt := Some(t)))
    ensures AssignOne(e, StepUpGrantedAt, NullTime(Some(t))) == Ok(e.(stepUpGrantedAt := Some(t)))
  {
  }

  /** The same for text and key columns, and for the columns that a modifier adds. */
  lemma AssignTextTable(e: Entity, x: string, d: Dest)
    ensures AssignOne(e, Tier, NullString(Some(x))) == Ok(e.(tier := x))
    ensures AssignOne(e, Amount, NullString(Some(x))) == Ok(e.(amount := x))
    ensures AssignOne(e, Currency, NullString(Some(x))) == Ok(e.(currency := x))
    ensures AssignOne(e, SenderKey, NullScanner(Some(x))) == Ok(e.(senderKey := Some(x)))
    ensures AssignOne(e, CardKey, NullScanner(Some(x))) == Ok(e.(cardKey := Some(x)))
    ensures AssignOne(e, Other(x), d) == Ok(e.(selected := e.selected[x := d]))
  {
  }

  /** A NULL leaves the field as it was. */
  lemma NullAssignsNothing(e: Entity, c: Column)
    requires !c.Other?
    ensures c in {CreatedAt, UpdatedAt, ExpiresAt, ConsumedAt, StepUpGrantedAt} ==>
              AssignOne(e, c, NullTime(None)) == Ok(e)
    ensures c in {Tier, Amount, Currency} ==> AssignOne(e, c, NullString(None)) == Ok(e)
    ensures c in {SenderKey, CardKey} ==> AssignOne(e, c, NullScanner(None)) == Ok(e)
  {
  }

  /** `scanValues`. */
  method ScanValues(columns: seq<Column>) returns (values: array<Dest>)
    ensures fresh(values) && values.Length == |columns|
    ensures forall i :: 0 <= i < |columns| ==> values[i] == DestFor(columns[i])
    ensures forall i :: 0 <= i < |columns| ==>
              match columns[i]
              case Id => values[i] == UuidDest("")
              case Nonce => values[i] == BytesDest([])
              case Tier => values[i] == NullString(None)
              case Amount => values[i] == NullString(None)
              case Currency => values[i] == NullString(None)
              case SenderKey => values[i] == NullScanner(None)
              case CardKey => values[i] == NullScanner(None)
              case Other(_) => values[i] == UnknownType(Null)
              case _ => values[i] == NullTime(None)
  {
    values := new Dest[|columns|](_ => UnknownType(Null));
    var i := 0;
    while i < |columns|
      invariant 0 <= i <= |columns|
      invariant forall j :: 0 <= j < i ==> values[j] == DestFor(columns[j])
    {
      values[i] := DestFor(columns[i]);
      i := i + 1;
    }
  }

  // ---- Writing ---------------------------------------------------------------------------

  /** The entity that create returns. */
  function Created(m: Mutation): Entity {
    Entity(m.id.GetOr(""), m.createdAt.GetOr(0), m.updatedAt.GetOr(0), m.nonce.GetOr([]), m.tier.GetOr(""),
           m.amount.GetOr(""), m.currency.GetOr(""), m.expiresAt.GetOr(0), m.consumedAt, m.stepUpGrantedAt,
           First(m.senderIds), First(m.cardIds), map[])
  }

  function First(ids: seq<string>): Option<string> {
    if ids == [] then None else Some(ids[0])
  }

  /** The columns in the order in which `createSpec` sets them. */
  const COLUMNS: seq<Column> :=
    [Id, CreatedAt, UpdatedAt, Nonce, Tier, Amount, Currency, ExpiresAt, ConsumedAt, StepUpGrantedAt,
     CardKey, SenderKey]

  /** The row once the first `k` columns have been set. */
  function RowUpTo(m: Mutation, k: nat): map<Column, Value>
    requires k <= |COLUMNS|
  {
    if k == 0 then map[]
    else
      var row, c := RowUpTo(m, k - 1), COLUMNS[k - 1];
      if m.Given(c).Some? then row[c := m.Given(c).value] else row
  }

  /** The row that create inserts. */
  function RowOf(m: Mutation): map<Column, Value> {
    RowUpTo(m, |COLUMNS|)
  }

  lemma {:induction false} RowUpToHas(m: Mutation, k: nat, c: Column)
    requires k <= |COLUMNS|
    ensures c in RowUpTo(m, k) <==> c in COLUMNS[..k] && m.Given(c).Some?
    ensures c in RowUpTo(m, k) ==> RowUpTo(m, k)[c] == m.Given(c).value
  {
    if k > 0 {
      RowUpToHas(m, k - 1, c);
      var columns := COLUMNS;
      assert columns[..k] == columns[..k - 1] + [columns[k - 1]];
    }
  }

  lemma EveryColumn(c: Column)
    ensures c in COLUMNS <==> !c.Other?
  {
  }

  /** The created entity holds, in every column's field, the value inserted there, and the
      zero value where nothing is inserted. */
  lemma CreatedMatchesRow(m: Mutation, c: Column)
    ensures c in RowOf(m) <==> m.Given(c).Some?
    ensures FieldOf(Created(m), c) == if c in RowOf(m) then RowOf(m)[c] else FieldOf(ZERO, c)
  {
    RowUpToHas(m, |COLUMNS|, c);
    EveryColumn(c);
    assert COLUMNS[..|COLUMNS|] == COLUMNS;
  }

  /** `if value, ok := mutation.X(); ok { spec.SetField(column, value); node.X = value }`. */
  method SetField<T>(ghost m: Mutation, ghost k: nat, row: map<Column, Value>, c: Column, given: Option<T>,
                     lift: T -> Value, zero: T)
    returns (row': map<Column, Value>, field: T)
    requires k < |COLUMNS| && COLUMNS[k] == c && row == RowUpTo(m, k) && m.Given(c) == Lift(given, lift)
    ensures row' == RowUpTo(m, k + 1) && field == given.GetOr(zero)
  {
    row', field := row, zero;
    if given.Some? {
      row' := row'[c := lift(given.value)];
      field := given.value;
    }
  }

  /** The same for a nillable field, which takes the address of the value. */
  method SetNillable<T>(ghost m: Mutation, ghost k: nat, row: map<Column, Value>, c: Column, given: Option<T>,
                        lift: T -> Value)
    returns (row': map<Column, Value>, field: Option<T>)
    requires k < |COLUMNS| && COLUMNS[k] == c && row == RowUpTo(m, k) && m.Given(c) == Lift(given, lift)
    ensures row' == RowUpTo(m, k + 1) && field == given
  {
    row', field := row, None;
    if given.Some? {
      row' := row'[c := lift(given.value)];
      field := given;
    }
  }

  /** The column is inserted exactly if there is a value, and then with it. */
  predicate Inserts(row: map<Column, Value>, c: Column, value: Option<Value>) {
    (c in row <==> value.Some?) && (c in row ==> value == Some(row[c]))
  }

  function TextOf(x: Option<string>): Option<Value> {
    if x.Some? then Some(Text(x.value)) else None
  }

  function TimeOf(x: Option<int>): Option<Value> {
    if x.Some? then Some(Time(x.value)) else None
  }

  function UuidOf(x: Option<string>): Option<Value> {
    if x.Some? then Some(Uuid(x.value)) else None
  }

  /** The inserted row, column by column. */
  lemma RowTable(m: Mutation, name: string)
    ensures var row := RowOf(m);
            && Inserts(row, Id, UuidOf(m.id)) && Inserts(row, CreatedAt, TimeOf(m.createdAt))
            && Inserts(row, UpdatedAt, TimeOf(m.updatedAt))
            && Inserts(row, Nonce, if m.nonce.Some? then Some(Blob(m.nonce.value)) else None)
            && Inserts(row, Tier, TextOf(m.tier)) && Inserts(row, Amount, TextOf(m.amount))
            && Inserts(row, Currency, TextOf(m.currency)) && Inserts(row, ExpiresAt, TimeOf(m.expiresAt))
            && Inserts(row, ConsumedAt, TimeOf(m.consumedAt))
            && Inserts(row, StepUpGrantedAt, TimeOf(m.stepUpGrantedAt))
            && Inserts(row, SenderKey, UuidOf(if m.senderIds == [] then None else Some(m.senderIds[0])))
            && Inserts(row, CardKey, UuidOf(if m.cardIds == [] then None else Some(m.cardIds[0])))
            && Inserts(row, Other(name), None)
  {
    forall c: Column ensures Inserts(RowOf(m), c, m.Given(c)) {
      RowUpToHas(m, |COLUMNS|, c);
      EveryColumn(c);
      assert COLUMNS[..|COLUMNS|] == COLUMNS;
    }
    assert Inserts(RowOf(m), Id, m.Given(Id)) && Inserts(RowOf(m), CreatedAt, m.Given(CreatedAt));
    assert Inserts(RowOf(m), UpdatedAt, m.Given(UpdatedAt)) && Inserts(RowOf(m), Nonce, m.Given(Nonce));
    assert Inserts(RowOf(m), Tier, m.Given(Tier)) && Inserts(RowOf(m), Amount, m.Given(Amount));
    assert Inserts(RowOf(m), Currency, m.Given(Currency)) && Inserts(RowOf(m), ExpiresAt, m.Given(ExpiresAt));
    assert Inserts(RowOf(m), ConsumedAt, m.Given(ConsumedAt));
    assert Inserts(RowOf(m), StepUpGrantedAt, m.Given(StepUpGrantedAt));
    assert Inserts(RowOf(m), SenderKey, m.Given(SenderKey)) && Inserts(RowOf(m), CardKey, m.Given(CardKey));
    assert Inserts(RowOf(m), Other(name), m.Given(Other(name)));
  }

  /** `createSpec`: the new entity and the row to insert. */
  method CreateSpec(m: Mutation) returns (node: CardServerNonce, row: map<Column, Value>)
    ensures fresh(node) && node.View() == Created(m) && row == RowOf(m)
    ensures node.id == m.id.GetOr("") && node.nonce == m.nonce.GetOr([])
    ensures node.createdAt == m.createdAt.GetOr(0) && node.updatedAt == m.updatedAt.GetOr(0)
    ensures node.tier == m.tier.GetOr("") && node.amount == m.amount.GetOr("") && node.currency == m.currency.GetOr("")
    ensures node.expiresAt == m.expiresAt.GetOr(0)
    ensures node.consumedAt == m.consumedAt && node.stepUpGrantedAt == m.stepUpGrantedAt
    ensures node.senderKey == if m.senderIds == [] then None else Some(m.senderIds[0])
    ensures node.cardKey == if m.cardIds == [] then None else Some(m.cardIds[0])
    ensures node.selected == map[]
  {
    node := new CardServerNonce();
    row := SetRequired(m, node);
    row := SetAmounts(m, node, row);
    row := SetOptional(m, node, row);
  }

  method SetRequired(m: Mutation, node: CardServerNonce) returns (row: map<Column, Value>)
    requires node.View() == ZERO
    modifies node`id, node`createdAt, node`updatedAt, node`nonce
    ensures node.View() == ZERO.(id := m.id.GetOr(""), createdAt := m.createdAt.GetOr(0),
                                 updatedAt := m.updatedAt.GetOr(0), nonce := m.nonce.GetOr([]))
    ensures row == RowUpTo(m, 4)
  {
    row := map[];
    row, node.id := SetField(m, 0, row, Id, m.id, x => Uuid(x), node.id);
    row, node.createdAt := SetField(m, 1, row, CreatedAt, m.createdAt, x => Time(x), node.createdAt);
    row, node.updatedAt := SetField(m, 2, row, UpdatedAt, m.updatedAt, x => Time(x), node.updatedAt);
    row, node.nonce := SetField(m, 3, row, Nonce, m.nonce, x => Blob(x), node.nonce);
  }

  method SetAmounts(m: Mutation, node: CardServerNonce, row0: map<Column, Value>) returns (row: map<Column, Value>)
    requires row0 == RowUpTo(m, 4) && node.tier == "" && node.amount == "" && node.currency == "" && node.expiresAt == 0
    modifies node`tier, node`amount, node`currency, node`expiresAt
    ensures node.View() == old(node.View()).(tier := m.tier.GetOr(""), amount := m.amount.GetOr(""),
                                             currency := m.currency.GetOr(""), expiresAt := m.expiresAt.GetOr(0))
    ensures row == RowUpTo(m, 8)
  {
    row := row0;
    row, node.tier := SetField(m, 4, row, Tier, m.tier, x => Text(x), node.tier);
    row, node.amount := SetField(m, 5, row, Amount, m.amount, x => Text(x), node.amount);
    row, node.currency := SetField(m, 6, row, Currency, m.currency, x => Text(x), node.currency);
    row, node.expiresAt := SetField(m, 7, row, ExpiresAt, m.expiresAt, x => Time(x), node.expiresAt);
  }

  method SetOptional(m: Mutation, node: CardServerNonce, row0: map<Column, Value>) returns (row: map<Column, Value>)
    requires row0 == RowUpTo(m, 8)
    modifies node`consumedAt, node`stepUpGrantedAt, node`cardKey, node`senderKey
    ensures node.View() == old(node.View()).(consumedAt := m.consumedAt, stepUpGrantedAt := m.stepUpGrantedAt,
                                             senderKey := First(m.senderIds), cardKey := First(m.cardIds))
    ensures row == RowUpTo(m, 12)
  {
    row := row0;
    var uuid, time := x => Uuid(x), x => Time(x);
    row, node.consumedAt := SetNillable(m, 8, row, ConsumedAt, m.consumedAt, time);
    row, node.stepUpGrantedAt := SetNillable(m, 9, row, StepUpGrantedAt, m.stepUpGrantedAt, time);
    row, node.cardKey := SetNillable(m, 10, row, CardKey, First(m.cardIds), uuid);
    row, node.senderKey := SetNillable(m, 11, row, SenderKey, First(m.senderIds), uuid);
  }

  // ---- Create, then read -------------------------------------------------------------------

  /** Every selected column scanned into its destination. */
  ghost predicate Scanned(row: map<Column, Value>, columns: seq<Column>, values: seq<Dest>) {
    && |values| == |columns|
    && forall i :: 0 <= i < |columns| ==> Scan(DestFor(columns[i]), Stored(row, columns[i])) == Ok(values[i])
  }

  /** Inserted values always fit the destinations that `scanValues` offers. */
  lemma InsertedValuesScan(m: Mutation, c: Column)
    ensures Scan(DestFor(c), Stored(RowOf(m), c)).Ok?
  {
    CreatedMatchesRow(m, c);
  }

  lemma {:induction false} ReadBack(m: Mutation, columns: seq<Column>, values: seq<Dest>, n: nat, c: Column)
    requires Scanned(RowOf(m), columns, values) && n <= |columns|
    ensures var (err, e) := AssignAll(ZERO, columns[..n], values);
            && err == None
            && FieldOf(e, c) == if c in columns[..n] then FieldOf(Created(m), c) else FieldOf(ZERO, c)
  {
    if n > 0 {
      var d := columns[n - 1];
      assert columns[..n][..n - 1] == columns[..n - 1];
      assert columns[..n] == columns[..n - 1] + [d];
      ReadBack(m, columns, values, n - 1, c);
      ReadBack(m, columns, values, n - 1, d);
      var e := AssignAll(ZERO, columns[..n - 1], values).1;
      AssignOneMore(m, e, d, values[n - 1], c);
    }
  }

  lemma AssignOneMore(m: Mutation, e: Entity, d: Column, value: Dest, c: Column)
    requires Scan(DestFor(d), Stored(RowOf(m), d)) == Ok(value)
    requires FieldOf(e, d) == FieldOf(ZERO, d) || FieldOf(e, d) == FieldOf(Created(m), d)
    ensures AssignOne(e, d, value).Ok?
    ensures FieldOf(AssignOne(e, d, value).value, c) == if c == d then FieldOf(Created(m), d) else FieldOf(e, c)
  {
    AssignStored(m, e, d, value);
    if c != d {
      AssignTouchesOne(e, d, value, c);
    }
  }

  /** Assigning the scanned value of a column gives its field the created value, whether
      the field was still zero or had been assigned before. */
  lemma AssignStored(m: Mutation, e: Entity, d: Column, value: Dest)
    requires Scan(DestFor(d), Stored(RowOf(m), d)) == Ok(value)
    requires FieldOf(e, d) == FieldOf(ZERO, d) || FieldOf(e, d) == FieldOf(Created(m), d)
    ensures AssignOne(e, d, value).Ok?
    ensures FieldOf(AssignOne(e, d, value).value, d) == FieldOf(Created(m), d)
  {
    CreatedMatchesRow(m, d);
  }

  /** Assigning one column leaves the other columns' fields alone. */
  lemma AssignTouchesOne(e: Entity, d: Column, value: Dest, c: Column)
    requires AssignOne(e, d, value).Ok? && c != d
    ensures FieldOf(AssignOne(e, d, value).value, c) == FieldOf(e, c)
  {
  }

  /** `defaults` and `check` aside, creating an entity and reading its row back yields the
      created field for every selected column and the zero value for the others, in any
      column order, with repetitions and unknown columns, and never a type error. */
  lemma CreateThenRead(m: Mutation, columns: seq<Column>, values: seq<Dest>)
    requires Scanned(RowOf(m), columns, values)
    ensures var (err, e) := AssignAll(ZERO, columns, values);
            && err == None
            && forall c: Column :: FieldOf(e, c) == FieldOf(if c in columns then Created(m) else ZERO, c)
  {
    assert columns[..|columns|] == columns;
    var e := AssignAll(ZERO, columns, values).1;
    ReadBack(m, columns, values, |columns|, Id);
    forall c: Column ensures FieldOf(e, c) == FieldOf(if c in columns then Created(m) else ZERO, c) {
      ReadBack(m, columns, values, |columns|, c);
    }
  }

  lemma {:induction false} KnownColumnsSelectNothing(e: Entity, columns: seq<Column>, values: seq<Dest>)
    requires |columns| <= |values| && forall c <- columns :: !c.Other?
    ensures AssignAll(e, columns, values).1.selected == e.selected
  {
    if columns != [] {
      var n := |columns| - 1;
      assert columns == columns[..n] + [columns[n]];
      KnownColumnsSelectNothing(e, columns[..n], values);
    }
  }

  /** The entity is rebuilt exactly when every column that was left out holds the zero
      value in the created entity. */
  lemma RebuiltIff(m: Mutation, columns: seq<Column>, values: seq<Dest>)
    requires Scanned(RowOf(m), columns, values) && forall c <- columns :: !c.Other?
    ensures AssignAll(ZERO, columns, values) == (None, Created(m))
            <==> forall c: Column :: c !in columns ==> FieldOf(Created(m), c) == FieldOf(ZERO, c)
  {
    CreateThenRead(m, columns, values);
    KnownColumnsSelectNothing(ZERO, columns, values);
    var e := AssignAll(ZERO, columns, values).1;
    if forall c: Column :: c !in columns ==> FieldOf(Created(m), c) == FieldOf(ZERO, c) {
      SameFieldsSameEntity(e, Created(m));
    }
  }
}
