/**
 * The work done by the form handler of the web application (`index()` in
 * `app.py`): the submitted user data is normalised, the identifiers are capped
 * at ten, each identifier is resolved against the inventory spreadsheet (the
 * owner and department of every hit are written back, under a cap of fifty
 * updates), and the items found are laid out in the handover document, with
 * an "OBS:" row after the first row of each run of equal identifiers.
 *
 * The spreadsheet is an oracle: `search(i)` is what the search returns for
 * the `i`-th identifier of the request, and `write(i, j)` says how far the
 * two cell updates for its `j`-th result got before one of them raised.
 */
module Pipeline {
  import opened Wrappers
  import opened Text
  import opened Sheets
  import opened Documents
  import Validation

  // ---------------------------------------------------------------------------
  // Normalising the submitted user data
  // ---------------------------------------------------------------------------

  /** `dados_usuario`: the user data written into the document and the spreadsheet. */
  datatype User = User(nome: string, funcao: string, departamento: string, numero: string, empresa: string)

  /** `DEPARTAMENTOS_WEB`: the department codes of the form and the names they stand for. */
  const Departments: seq<(string, string)> := [
    ("ti", "TI"), ("rh", "People & Culture"), ("administrativo", "ADM/Financeiro"),
    ("marketing", "Marketing"), ("comercial", "Comercial"), ("desenvolvimento", "Desenvolvimento"),
    ("central", "Central de REL."), ("juridico", "Juridico")]

  /** The upper-cased role that stands for "another role, typed in `outrosFuncao`". */
  const OtherRole: string := "OUTROS"

  /**
   * Name and role upper-cased, the department code looked up and upper-cased
   * (empty when unknown), the phone as typed, the company lower-cased; a role
   * of `OUTROS` is replaced by the upper-cased `outrosFuncao`.
   */
  function NormalizeUser(form: Validation.Form): User
  {
    var role := Upper(form.funcao);
    User(
      Upper(form.nome),
      if role == OtherRole then Upper(form.outrosFuncao) else role,
      match Lookup(Departments, form.departamento)
      case Some(name) => Upper(name)
      case None => "",
      form.telefone,
      Lower(form.empresa))
  }

  predicate NoLowerAscii(s: string)
  {
    forall i :: 0 <= i < |s| ==> !IsLowerAscii(s[i])
  }

  predicate NoUpperAscii(s: string)
  {
    forall i :: 0 <= i < |s| ==> !IsUpperAscii(s[i])
  }

  /** Upper-casing leaves no lower-case letter and changes nothing a second time. */
  lemma UpperIsNormal(s: string)
    ensures NoLowerAscii(Upper(s)) && Upper(Upper(s)) == Upper(s)
  {
  }

  /** Lower-casing leaves no upper-case letter and changes nothing a second time. */
  lemma LowerIsNormal(s: string)
    ensures NoUpperAscii(Lower(s)) && Lower(Lower(s)) == Lower(s)
  {
  }

  /** A dictionary lookup finds an entry of the dictionary. */
  lemma {:induction false} LookupFindsEntry(d: seq<(string, string)>, key: string)
    ensures Lookup(d, key).Some? ==> (key, Lookup(d, key).value) in d
    ensures Lookup(d, key).None? ==> forall v :: (key, v) !in d
  {
    if d != [] && d[0].0 != key {
      LookupFindsEntry(d[1..], key);
      assert forall p :: p in d ==> p == d[0] || p in d[1..];
    }
  }

  /** The normalised data is in its case: normalising it again changes nothing. */
  lemma NormalizedCase(form: Validation.Form)
    ensures var u := NormalizeUser(form);
      && NoLowerAscii(u.nome) && Upper(u.nome) == u.nome
      && NoLowerAscii(u.funcao) && Upper(u.funcao) == u.funcao
      && NoLowerAscii(u.departamento) && Upper(u.departamento) == u.departamento
      && NoUpperAscii(u.empresa) && Lower(u.empresa) == u.empresa
      && u.numero == form.telefone
  {
    UpperIsNormal(form.nome);
    UpperIsNormal(form.funcao);
    UpperIsNormal(form.outrosFuncao);
    LowerIsNormal(form.empresa);
    match Lookup(Departments, form.departamento)
    case Some(name) => UpperIsNormal(name);
    case None =>
  }

  /**
   * The department is empty exactly when the submitted code is not in the
   * table, and otherwise is the upper-cased name the table gives that code.
   */
  lemma NormalizedDepartment(form: Validation.Form)
    ensures var u := NormalizeUser(form);
      && (u.departamento == [] <==> forall v :: (form.departamento, v) !in Departments)
      && (u.departamento != [] ==> exists v :: (form.departamento, v) in Departments && u.departamento == Upper(v))
  {
    LookupFindsEntry(Departments, form.departamento);
    assert forall p :: p in Departments ==> p.1 != [];
  }

  /**
   * The role is replaced whatever the case of `OUTROS` as typed, while the
   * form check asks for `outrosFuncao` only when the role is exactly
   * `outros`: a role typed as `Outros` with no `outrosFuncao` passes the
   * role checks and reaches the document as an empty role.
   */
  lemma OtherRoleCaseGap(form: Validation.Form)
    requires form.funcao == "Outros" && form.outrosFuncao == ""
    ensures Validation.OtherRoleErrors(form) == []
    ensures Validation.ValidateFunction(form.funcao, "funcao").Valid?
    ensures NormalizeUser(form).funcao == ""
  {
    assert Upper(form.funcao) == OtherRole;
  }

  // ---------------------------------------------------------------------------
  // Resolving the identifiers against the spreadsheet
  // ---------------------------------------------------------------------------

  /** What `app.py` keeps of a hit: the table fields, the observation and the identifier. */
  datatype Item = Item(fields: seq<string>, observation: string, asset: string)

  /**
   * How far the two updates of one hit got: both calls returned, the
   * department call raised after the owner update was sent, or nothing was
   * sent (building the handler or loading the credentials raised).
   */
  datatype WriteOutcome = BothReturned | OwnerOnly | NoneReturned

  /** The spreadsheet as seen by one request. */
  datatype Spreadsheet = Spreadsheet(search: nat -> seq<SheetRow>, write: (nat, nat) -> WriteOutcome)

  /** The identifiers and observations of a request, for a given user and spreadsheet. */
  datatype Request = Request(user: User, assets: seq<string>, observations: seq<string>, sheet: Spreadsheet)

  /** `todos_itens`, `assets_not_found`, `total_updates`, and the cell updates sent. */
  datatype Resolution = Resolution(items: seq<Item>, notFound: seq<string>, updates: nat, writes: seq<CellWrite>)

  const MaxAssetsPerRequest: nat := 10
  const MaxResultsPerAsset: nat := 5
  const MaxUpdatesPerRequest: nat := 50

  /** `resultados[:5]` when there are more than five. */
  function FirstResults(hits: seq<SheetRow>): (r: seq<SheetRow>)
    ensures r <= hits
    ensures |r| == if |hits| <= MaxResultsPerAsset then |hits| else MaxResultsPerAsset
  {
    if |hits| > MaxResultsPerAsset then hits[..MaxResultsPerAsset] else hits
  }

  /** The observation of identifier `i`, or empty when there is none. */
  function ObservationAt(observations: seq<string>, i: nat): string
  {
    if i < |observations| && observations[i] != "" then observations[i] else ""
  }

  /** `["01", " ".join(fields[:-1]), fields[-1]]`. */
  function ItemFields(fields: seq<string>): seq<string>
    requires |fields| >= 2
  {
    ["01", Join(fields[..|fields| - 1], " "), fields[|fields| - 1]]
  }

  /** The cell updates sent for one hit. */
  function WritesFor(outcome: WriteOutcome, hit: SheetRow, user: User): seq<CellWrite>
  {
    match outcome
    case BothReturned => [OwnerWrite(hit.sheet, hit.row, user.nome), DepartmentWrite(hit.sheet, hit.row, user.departamento)]
    case OwnerOnly => [OwnerWrite(hit.sheet, hit.row, user.nome)]
    case NoneReturned => []
  }

  /**
   * One hit `j` of identifier `i`: the updates are sent, the counter moves
   * only when both returned, and the item is kept whenever the projected row
   * has at least two fields, whether or not the updates went through.
   */
  function HandleResult(prev: Resolution, req: Request, project: SheetRow -> seq<string>, i: nat, j: nat, hit: SheetRow): Resolution
    requires i < |req.assets|
  {
    var outcome := req.sheet.write(i, j);
    var fields := project(hit);
    Resolution(
      if |fields| >= 2 then prev.items + [Item(ItemFields(fields), ObservationAt(req.observations, i), req.assets[i])]
      else prev.items,
      prev.notFound,
      if outcome == BothReturned then prev.updates + 1 else prev.updates,
      prev.writes + WritesFor(outcome, hit, req.user))
  }

  /**
   * Whatever the updates of a hit did, the same item is kept for it: only
   * the counter and the updates sent depend on the outcome.
   */
  lemma ItemIgnoresWriteOutcome(prev: Resolution, req: Request, project: SheetRow -> seq<string>, i: nat, j: nat, hit: SheetRow,
                                other: (nat, nat) -> WriteOutcome)
    requires i < |req.assets|
    ensures var r := HandleResult(prev, req, project, i, j, hit);
      var s := HandleResult(prev, req.(sheet := req.sheet.(write := other)), project, i, j, hit);
      r.items == s.items && r.notFound == s.notFound
  {
  }

  /** A hit's row through `filtrar_lista_por_aba`. */
  function Projection(hit: SheetRow): seq<string>
  {
    FilterBySheet(hit.sheet, hit.values)
  }

  /**
   * The first `n` hits of identifier `i`, each row projected by `project`;
   * a hit met once the counter is at the cap ends the scan. The resolution
   * is defined for any projection; the application's is `Projection`.
   */
  function ResultsUpTo(start: Resolution, req: Request, project: SheetRow -> seq<string>, i: nat, hits: seq<SheetRow>, n: nat): Resolution
    requires i < |req.assets| && n <= |hits|
  {
    if n == 0 then start
    else
      var prev := ResultsUpTo(start, req, project, i, hits, n - 1);
      if prev.updates >= MaxUpdatesPerRequest then prev
      else HandleResult(prev, req, project, i, n - 1, hits[n - 1])
  }

  /**
   * Identifier `i`: skipped when empty (a blank one is still searched),
   * recorded as not found when the search returns nothing, and otherwise
   * its first five hits are handled.
   */
  function ResolveAsset(prev: Resolution, req: Request, project: SheetRow -> seq<string>, i: nat): Resolution
    requires i < |req.assets|
  {
    var asset := req.assets[i];
    if asset == "" then prev
    else
      var hits := req.sheet.search(i);
      if hits == [] then prev.(notFound := prev.notFound + [asset])
      else
        var first := FirstResults(hits);
        ResultsUpTo(prev, req, project, i, first, |first|)
  }

  /** The state after the first `n` identifiers. */
  function ResolveUpTo(req: Request, project: SheetRow -> seq<string>, n: nat): Resolution
    requires n <= |req.assets|
  {
    if n == 0 then Resolution([], [], 0, [])
    else ResolveAsset(ResolveUpTo(req, project, n - 1), req, project, n - 1)
  }

  /** The state after the whole request. */
  function Resolve(req: Request): Resolution
  {
    ResolveUpTo(req, Projection, |req.assets|)
  }

  /** Once the counter is at the cap, the remaining hits change nothing. */
  lemma {:induction false} CapIsFinal(start: Resolution, req: Request, project: SheetRow -> seq<string>, i: nat, hits: seq<SheetRow>, m: nat, n: nat)
    requires i < |req.assets| && m <= n <= |hits|
    requires ResultsUpTo(start, req, project, i, hits, m).updates >= MaxUpdatesPerRequest
    ensures ResultsUpTo(start, req, project, i, hits, n) == ResultsUpTo(start, req, project, i, hits, m)
  {
    if n > m {
      CapIsFinal(start, req, project, i, hits, m, n - 1);
    }
  }

  /** The hits of one identifier, with a `break` once the counter reaches the cap. */
  method ProcessResults(start: Resolution, req: Request, i: nat, hits: seq<SheetRow>) returns (r: Resolution)
    requires i < |req.assets|
    ensures r == ResultsUpTo(start, req, Projection, i, hits, |hits|)
  {
    r := start;
    var j := 0;
    while j < |hits|
      invariant 0 <= j <= |hits| && r == ResultsUpTo(start, req, Projection, i, hits, j)
    {
      if r.updates >= MaxUpdatesPerRequest {
        CapIsFinal(start, req, Projection, i, hits, j, |hits|);
        break;
      }
      var hit := hits[j];
      var outcome := req.sheet.write(i, j);
      var updates := r.updates;
      if outcome == BothReturned {
        updates := updates + 1;
      }
      var writes := r.writes + WritesFor(outcome, hit, req.user);
      var fields := FilterBySheet(hit.sheet, hit.values);
      var items := r.items;
      if |fields| >= 2 {
        items := items + [Item(ItemFields(fields), ObservationAt(req.observations, i), req.assets[i])];
      }
      r := Resolution(items, r.notFound, updates, writes);
      j := j + 1;
    }
  }

  /** The loop over the identifiers of the request. */
  method ResolveAssets(req: Request) returns (r: Resolution)
    ensures r == Resolve(req)
  {
    r := Resolution([], [], 0, []);
    var i := 0;
    while i < |req.assets|
      invariant 0 <= i <= |req.assets| && r == ResolveUpTo(req, Projection, i)
    {
      var asset := req.assets[i];
      if asset != "" {
        var hits := req.sheet.search(i);
        if hits != [] {
          if |hits| > MaxResultsPerAsset {
            hits := hits[..MaxResultsPerAsset];
          }
          r := ProcessResults(r, req, i, hits);
        } else {
          r := r.(notFound := r.notFound + [asset]);
        }
      }
      i := i + 1;
    }
  }

  // ---------------------------------------------------------------------------
  // What the resolution guarantees
  // ---------------------------------------------------------------------------

  lemma {:induction false} ResultsKeepCap(start: Resolution, req: Request, project: SheetRow -> seq<string>, i: nat, hits: seq<SheetRow>, n: nat)
    requires i < |req.assets| && n <= |hits|
    requires start.updates <= MaxUpdatesPerRequest
    ensures ResultsUpTo(start, req, project, i, hits, n).updates <= MaxUpdatesPerRequest
  {
    if n > 0 {
      ResultsKeepCap(start, req, project, i, hits, n - 1);
    }
  }

  /** The update counter never exceeds fifty. */
  lemma {:induction false} UpdatesWithinCap(req: Request, project: SheetRow -> seq<string>, n: nat)
    requires n <= |req.assets|
    ensures ResolveUpTo(req, project, n).updates <= MaxUpdatesPerRequest
  {
    if n > 0 {
      UpdatesWithinCap(req, project, n - 1);
      var first := FirstResults(req.sheet.search(n - 1));
      ResultsKeepCap(ResolveUpTo(req, project, n - 1), req, project, n - 1, first, |first|);
    }
  }

  /** The identifiers that were searched and returned nothing, in request order. */
  function Missing(req: Request, n: nat): seq<string>
    requires n <= |req.assets|
  {
    if n == 0 then []
    else Missing(req, n - 1) + (if req.assets[n - 1] != "" && req.sheet.search(n - 1) == [] then [req.assets[n - 1]] else [])
  }

  lemma {:induction false} ResultsKeepNotFound(start: Resolution, req: Request, project: SheetRow -> seq<string>, i: nat, hits: seq<SheetRow>, n: nat)
    requires i < |req.assets| && n <= |hits|
    ensures ResultsUpTo(start, req, project, i, hits, n).notFound == start.notFound
  {
    if n > 0 {
      ResultsKeepNotFound(start, req, project, i, hits, n - 1);
    }
  }

  /**
   * The not-found list is exactly the non-empty identifiers whose search
   * returned nothing, whatever the update counter did.
   */
  lemma {:induction false} NotFoundAreMissing(req: Request, project: SheetRow -> seq<string>, n: nat)
    requires n <= |req.assets|
    ensures ResolveUpTo(req, project, n).notFound == Missing(req, n)
  {
    if n > 0 {
      NotFoundAreMissing(req, project, n - 1);
      var first := FirstResults(req.sheet.search(n - 1));
      ResultsKeepNotFound(ResolveUpTo(req, project, n - 1), req, project, n - 1, first, |first|);
    }
  }

  lemma {:induction false} ResultsAtCap(start: Resolution, req: Request, project: SheetRow -> seq<string>, i: nat, hits: seq<SheetRow>, n: nat)
    requires i < |req.assets| && n <= |hits|
    requires start.updates >= MaxUpdatesPerRequest
    ensures ResultsUpTo(start, req, project, i, hits, n) == start
  {
    if n > 0 {
      ResultsAtCap(start, req, project, i, hits, n - 1);
    }
  }

  /** Two states that agree on everything but the not-found list. */
  predicate SameOutput(a: Resolution, b: Resolution)
  {
    a.items == b.items && a.updates == b.updates && a.writes == b.writes
  }

  /** An identifier met once the counter is at the cap can only be recorded as not found. */
  lemma AssetAtCap(prev: Resolution, req: Request, project: SheetRow -> seq<string>, i: nat)
    requires i < |req.assets| && prev.updates >= MaxUpdatesPerRequest
    ensures SameOutput(ResolveAsset(prev, req, project, i), prev)
  {
    var first := FirstResults(req.sheet.search(i));
    ResultsAtCap(prev, req, project, i, first, |first|);
  }

  /**
   * Once fifty updates have been counted, later identifiers add no item and
   * send no update; only the not-found list can still grow.
   */
  lemma {:induction false} CapFreezesResolution(req: Request, project: SheetRow -> seq<string>, m: nat, n: nat)
    requires m <= n <= |req.assets|
    requires ResolveUpTo(req, project, m).updates >= MaxUpdatesPerRequest
    ensures SameOutput(ResolveUpTo(req, project, n), ResolveUpTo(req, project, m))
  {
    if n > m {
      CapFreezesResolution(req, project, m, n - 1);
      AssetAtCap(ResolveUpTo(req, project, n - 1), req, project, n - 1);
    }
  }

  lemma {:induction false} ResultsAddAtMostOneItemEach(start: Resolution, req: Request, project: SheetRow -> seq<string>, i: nat, hits: seq<SheetRow>, n: nat)
    requires i < |req.assets| && n <= |hits|
    ensures |ResultsUpTo(start, req, project, i, hits, n).items| <= |start.items| + n
  {
    if n > 0 {
      ResultsAddAtMostOneItemEach(start, req, project, i, hits, n - 1);
    }
  }

  /** One identifier contributes at most five items. */
  lemma AtMostFiveItemsPerAsset(req: Request, project: SheetRow -> seq<string>, n: nat)
    requires n < |req.assets|
    ensures |ResolveUpTo(req, project, n + 1).items| <= |ResolveUpTo(req, project, n).items| + MaxResultsPerAsset
  {
    var first := FirstResults(req.sheet.search(n));
    ResultsAddAtMostOneItemEach(ResolveUpTo(req, project, n), req, project, n, first, |first|);
  }

  /** Each hit moves the counter by at most one. */
  lemma {:induction false} ResultsAddAtMostOneUpdateEach(start: Resolution, req: Request, project: SheetRow -> seq<string>, i: nat, hits: seq<SheetRow>, n: nat)
    requires i < |req.assets| && n <= |hits|
    ensures ResultsUpTo(start, req, project, i, hits, n).updates <= start.updates + n
  {
    if n > 0 {
      ResultsAddAtMostOneUpdateEach(start, req, project, i, hits, n - 1);
    }
  }

  /** The first `n` identifiers count at most five updates each. */
  lemma {:induction false} AtMostFiveUpdatesPerAsset(req: Request, project: SheetRow -> seq<string>, n: nat)
    requires n <= |req.assets|
    ensures ResolveUpTo(req, project, n).updates <= MaxResultsPerAsset * n
  {
    if n > 0 {
      AtMostFiveUpdatesPerAsset(req, project, n - 1);
      var first := FirstResults(req.sheet.search(n - 1));
      ResultsAddAtMostOneUpdateEach(ResolveUpTo(req, project, n - 1), req, project, n - 1, first, |first|);
    }
  }

  /**
   * The update cap never binds on a request the ten-identifier limit lets
   * through: before hit `k` of identifier `i` is handled the counter is at
   * most `5 * i + k`, which stays below 50, so the `break` is never taken.
   */
  lemma CapNeverBinds(req: Request, project: SheetRow -> seq<string>, i: nat, k: nat)
    requires |req.assets| <= MaxAssetsPerRequest && i < |req.assets|
    requires k < |FirstResults(req.sheet.search(i))|
    ensures var first := FirstResults(req.sheet.search(i));
      ResultsUpTo(ResolveUpTo(req, project, i), req, project, i, first, k).updates < MaxUpdatesPerRequest
  {
    var first := FirstResults(req.sheet.search(i));
    AtMostFiveUpdatesPerAsset(req, project, i);
    ResultsAddAtMostOneUpdateEach(ResolveUpTo(req, project, i), req, project, i, first, k);
  }

  /** The item `app.py` keeps for a hit of identifier `i` whose projection has at least two fields. */
  function HitItem(req: Request, project: SheetRow -> seq<string>, i: nat, hit: SheetRow): Item
    requires i < |req.assets| && |project(hit)| >= 2
  {
    Item(ItemFields(project(hit)), ObservationAt(req.observations, i), req.assets[i])
  }

  /**
   * The items a list of hits yields when no cap intervenes: one per hit whose
   * projection has at least two fields, in hit order.
   */
  function HitItems(req: Request, project: SheetRow -> seq<string>, i: nat, hits: seq<SheetRow>): seq<Item>
    requires i < |req.assets|
  {
    if hits == [] then []
    else
      (if |project(hits[0])| >= 2 then [HitItem(req, project, i, hits[0])] else [])
      + HitItems(req, project, i, hits[1..])
  }

  lemma {:induction false} HitItemsAppend(req: Request, project: SheetRow -> seq<string>, i: nat, a: seq<SheetRow>, b: seq<SheetRow>)
    requires i < |req.assets|
    ensures HitItems(req, project, i, a + b) == HitItems(req, project, i, a) + HitItems(req, project, i, b)
  {
    if a == [] {
      assert a + b == b;
    } else {
      assert (a + b)[0] == a[0] && (a + b)[1..] == a[1..] + b;
      HitItemsAppend(req, project, i, a[1..], b);
    }
  }

  /**
   * Every hit with at least two projected fields yields its item, and every
   * item comes from such a hit: `["01", " ".join(fields[:-1]), fields[-1]]`
   * of its projection, with the identifier and its observation.
   */
  lemma {:induction false} HitItemsSpec(req: Request, project: SheetRow -> seq<string>, i: nat, hits: seq<SheetRow>)
    requires i < |req.assets|
    ensures |HitItems(req, project, i, hits)| <= |hits|
    ensures forall h :: h in hits && |project(h)| >= 2 ==> HitItem(req, project, i, h) in HitItems(req, project, i, hits)
    ensures forall item :: item in HitItems(req, project, i, hits) ==>
      exists h :: h in hits && |project(h)| >= 2 && item == HitItem(req, project, i, h)
  {
    if hits != [] {
      HitItemsSpec(req, project, i, hits[1..]);
      forall h | h in hits && |project(h)| >= 2
        ensures HitItem(req, project, i, h) in HitItems(req, project, i, hits)
      {
        if h != hits[0] {
          assert h in hits[1..];
        }
      }
      forall item | item in HitItems(req, project, i, hits)
        ensures exists h :: h in hits && |project(h)| >= 2 && item == HitItem(req, project, i, h)
      {
        if item !in HitItems(req, project, i, hits[1..]) {
          assert item == HitItem(req, project, i, hits[0]);
        } else {
          var h :| h in hits[1..] && |project(h)| >= 2 && item == HitItem(req, project, i, h);
          assert h in hits;
        }
      }
    }
  }

  /** Below the cap, handling the first `n` hits appends exactly their items. */
  lemma {:induction false} ResultsAreHitItems(start: Resolution, req: Request, project: SheetRow -> seq<string>, i: nat, hits: seq<SheetRow>, n: nat)
    requires i < |req.assets| && n <= |hits| && start.updates + n <= MaxUpdatesPerRequest
    ensures ResultsUpTo(start, req, project, i, hits, n).items == start.items + HitItems(req, project, i, hits[..n])
  {
    if n == 0 {
      assert hits[..0] == [];
    } else {
      ResultsAreHitItems(start, req, project, i, hits, n - 1);
      ResultsAddAtMostOneUpdateEach(start, req, project, i, hits, n - 1);
      assert hits[..n] == hits[..n - 1] + [hits[n - 1]];
      HitItemsAppend(req, project, i, hits[..n - 1], [hits[n - 1]]);
      assert [hits[n - 1]][1..] == [];
    }
  }

  /** The items identifier `i` yields with no update cap: those of its first five hits; none when it is empty. */
  function AssetItems(req: Request, project: SheetRow -> seq<string>, i: nat): seq<Item>
    requires i < |req.assets|
  {
    if req.assets[i] == "" then [] else HitItems(req, project, i, FirstResults(req.sheet.search(i)))
  }

  /** The items of the first `n` identifiers with no update cap, identifier by identifier. */
  function AllItems(req: Request, project: SheetRow -> seq<string>, n: nat): seq<Item>
    requires n <= |req.assets|
  {
    if n == 0 then [] else AllItems(req, project, n - 1) + AssetItems(req, project, n - 1)
  }

  /** Below the cap, identifier `i` appends exactly its items. */
  lemma AssetItemsAppended(prev: Resolution, req: Request, project: SheetRow -> seq<string>, i: nat)
    requires i < |req.assets| && prev.updates + MaxResultsPerAsset <= MaxUpdatesPerRequest
    ensures ResolveAsset(prev, req, project, i).items == prev.items + AssetItems(req, project, i)
  {
    var hits := req.sheet.search(i);
    var first := FirstResults(hits);
    if req.assets[i] != "" {
      if hits == [] {
        assert first == [];
      } else {
        ResultsAreHitItems(prev, req, project, i, first, |first|);
        assert first[..|first|] == first;
      }
    }
  }

  /**
   * With at most ten identifiers the items are exactly, identifier by
   * identifier and hit by hit, those of the kept hits with at least two
   * projected fields.
   */
  lemma {:induction false} ResolvedItemsWithoutCap(req: Request, project: SheetRow -> seq<string>, n: nat)
    requires |req.assets| <= MaxAssetsPerRequest && n <= |req.assets|
    ensures ResolveUpTo(req, project, n).items == AllItems(req, project, n)
  {
    if n > 0 {
      var prev := ResolveUpTo(req, project, n - 1);
      ResolvedItemsWithoutCap(req, project, n - 1);
      AtMostFiveUpdatesPerAsset(req, project, n - 1);
      AssetItemsAppended(prev, req, project, n - 1);
    }
  }

  /**
   * An item as the document needs it: three fields starting with `"01"`, the
   * last one a non-empty stripped cell, taken for a non-empty identifier
   * among the first `n` together with that identifier's observation.
   */
  predicate ItemFrom(req: Request, n: nat, item: Item)
    requires n <= |req.assets|
  {
    && |item.fields| == 3 && item.fields[0] == "01" && Trimmed(item.fields[2])
    && exists i :: 0 <= i < n && req.assets[i] == item.asset != "" && item.observation == ObservationAt(req.observations, i)
  }

  predicate AllTrimmed(fields: seq<string>)
  {
    forall k :: 0 <= k < |fields| ==> Trimmed(fields[k])
  }

  /** Every field `filtrar_lista_por_aba` keeps is a non-empty stripped cell. */
  lemma ProjectionTrimmed(hit: SheetRow)
    ensures AllTrimmed(Projection(hit))
  {
    FilterBySheetFields(hit.sheet, hit.values);
  }

  predicate ItemsFrom(req: Request, n: nat, items: seq<Item>)
    requires n <= |req.assets|
  {
    forall k :: 0 <= k < |items| ==> ItemFrom(req, n, items[k])
  }

  lemma ItemsFromGrow(req: Request, m: nat, n: nat, items: seq<Item>)
    requires m <= n <= |req.assets| && ItemsFrom(req, m, items)
    ensures ItemsFrom(req, n, items)
  {
    forall k | 0 <= k < |items| ensures ItemFrom(req, n, items[k]) {
      var i :| 0 <= i < m && req.assets[i] == items[k].asset != "" && items[k].observation == ObservationAt(req.observations, i);
    }
  }

  lemma ItemsFromAppend(req: Request, n: nat, items: seq<Item>, item: Item)
    requires n <= |req.assets| && ItemsFrom(req, n, items) && ItemFrom(req, n, item)
    ensures ItemsFrom(req, n, items + [item])
  {
    forall k | 0 <= k < |items + [item]| ensures ItemFrom(req, n, (items + [item])[k]) {
      if k < |items| {
        assert (items + [item])[k] == items[k];
      }
    }
  }

  lemma {:induction false} ResultsItemsFrom(start: Resolution, req: Request, i: nat, hits: seq<SheetRow>, n: nat)
    requires i < |req.assets| && n <= |hits| && req.assets[i] != ""
    requires ItemsFrom(req, i + 1, start.items)
    ensures ItemsFrom(req, i + 1, ResultsUpTo(start, req, Projection, i, hits, n).items)
  {
    if n > 0 {
      ResultsItemsFrom(start, req, i, hits, n - 1);
      var prev := ResultsUpTo(start, req, Projection, i, hits, n - 1);
      var fields := Projection(hits[n - 1]);
      if prev.updates < MaxUpdatesPerRequest && |fields| >= 2 {
        ProjectionTrimmed(hits[n - 1]);
        var item := Item(ItemFields(fields), ObservationAt(req.observations, i), req.assets[i]);
        assert Trimmed(item.fields[2]);
        ItemsFromAppend(req, i + 1, prev.items, item);
      }
    }
  }

  /** Every item has the three document fields and belongs to a submitted identifier. */
  lemma {:induction false} ItemsAreWellFormed(req: Request, n: nat)
    requires n <= |req.assets|
    ensures ItemsFrom(req, n, ResolveUpTo(req, Projection, n).items)
  {
    if n > 0 {
      ItemsAreWellFormed(req, n - 1);
      var prev := ResolveUpTo(req, Projection, n - 1);
      ItemsFromGrow(req, n - 1, n, prev.items);
      var hits := req.sheet.search(n - 1);
      if req.assets[n - 1] != "" && hits != [] {
        var first := FirstResults(hits);
        ResultsItemsFrom(prev, req, n - 1, first, |first|);
      }
    }
  }

  /** An update of column `b`, the one `altera_departamento` sends. */
  predicate IsDepartmentWrite(w: CellWrite)
  {
    w.column == "b"
  }

  /** The number of department updates in a log of updates. */
  function DepartmentWrites(writes: seq<CellWrite>): nat
  {
    if writes == [] then 0
    else DepartmentWrites(writes[..|writes| - 1]) + (if IsDepartmentWrite(writes[|writes| - 1]) then 1 else 0)
  }

  lemma {:induction false} DepartmentWritesAppend(a: seq<CellWrite>, b: seq<CellWrite>)
    ensures DepartmentWrites(a + b) == DepartmentWrites(a) + DepartmentWrites(b)
  {
    if b != [] {
      DepartmentWritesAppend(a, b[..|b| - 1]);
      assert (a + b)[..|a + b| - 1] == a + b[..|b| - 1];
    } else {
      assert a + b == a;
    }
  }

  /** The updates of one hit hold one department update exactly when both calls returned. */
  lemma WritesForCount(outcome: WriteOutcome, hit: SheetRow, user: User)
    ensures DepartmentWrites(WritesFor(outcome, hit, user)) == if outcome == BothReturned then 1 else 0
  {
    var owner := OwnerWrite(hit.sheet, hit.row, user.nome);
    var department := DepartmentWrite(hit.sheet, hit.row, user.departamento);
    assert !IsDepartmentWrite(owner) && IsDepartmentWrite(department);
    assert DepartmentWrites([owner]) == 0 by {
      assert [owner][..0] == [];
    }
    assert DepartmentWrites([owner, department]) == 1 by {
      assert [owner, department][..1] == [owner];
    }
  }

  lemma {:induction false} ResultsCountDepartmentWrites(start: Resolution, req: Request, project: SheetRow -> seq<string>, i: nat, hits: seq<SheetRow>, n: nat)
    requires i < |req.assets| && n <= |hits|
    requires start.updates == DepartmentWrites(start.writes)
    ensures var r := ResultsUpTo(start, req, project, i, hits, n); r.updates == DepartmentWrites(r.writes)
  {
    if n > 0 {
      ResultsCountDepartmentWrites(start, req, project, i, hits, n - 1);
      var prev := ResultsUpTo(start, req, project, i, hits, n - 1);
      var outcome := req.sheet.write(i, n - 1);
      DepartmentWritesAppend(prev.writes, WritesFor(outcome, hits[n - 1], req.user));
      WritesForCount(outcome, hits[n - 1], req.user);
    }
  }

  /**
   * The counter is the number of department updates sent, that is, the
   * number of hits whose two update calls both returned.
   */
  lemma {:induction false} UpdatesCountDepartmentWrites(req: Request, project: SheetRow -> seq<string>, n: nat)
    requires n <= |req.assets|
    ensures ResolveUpTo(req, project, n).updates == DepartmentWrites(ResolveUpTo(req, project, n).writes)
  {
    if n > 0 {
      UpdatesCountDepartmentWrites(req, project, n - 1);
      AssetCountsDepartmentWrites(ResolveUpTo(req, project, n - 1), req, project, n - 1);
    }
  }

  lemma AssetCountsDepartmentWrites(prev: Resolution, req: Request, project: SheetRow -> seq<string>, i: nat)
    requires i < |req.assets|
    requires prev.updates == DepartmentWrites(prev.writes)
    ensures var r := ResolveAsset(prev, req, project, i); r.updates == DepartmentWrites(r.writes)
  {
    var hits := req.sheet.search(i);
    if req.assets[i] != "" && hits != [] {
      var first := FirstResults(hits);
      ResultsCountDepartmentWrites(prev, req, project, i, first, |first|);
    }
  }

  // ---------------------------------------------------------------------------
  // Laying out the items in the document table
  // ---------------------------------------------------------------------------

  const ObsPrefix: string := "OBS: "

  /** The merged row that carries an identifier's observation. */
  function ObsRow(columns: nat, observation: string): Row
  {
    MergedRow(columns, ObsPrefix + Upper(observation))
  }

  /** The rows appended so far, `patrimonio_atual`, and the error of the call that raised, if any. */
  datatype Layout = Layout(rows: seq<Row>, current: Option<string>, outcome: Outcome<string>)

  /**
   * The assembly loop over the first `n` items: one data row per item, then,
   * when the identifier differs from `patrimonio_atual`, an OBS row if the
   * item has an observation. A call that raises ends the loop; the rows it
   * appended before raising stay.
   */
  function LayoutUpTo(items: seq<Item>, columns: nat, n: nat): Layout
    requires n <= |items|
  {
    if n == 0 then Layout([], None, Pass)
    else
      var prev := LayoutUpTo(items, columns, n - 1);
      var item := items[n - 1];
      if prev.outcome.Fail? then prev
      else if |item.fields| != 3 then Layout(prev.rows + [EmptyRow(columns)], prev.current, Fail(ArityMessage))
      else
        var rows := prev.rows + [FilledRow(columns, item.fields)];
        if prev.current == Some(item.asset) then Layout(rows, prev.current, Pass)
        else if item.observation == "" then Layout(rows, Some(item.asset), Pass)
        else if columns == 0 then Layout(rows + [EmptyRow(0)], prev.current, Fail(IndexErrorMessage))
        else Layout(rows + [ObsRow(columns, item.observation)], Some(item.asset), Pass)
  }

  /** Once a call has raised, later items change nothing. */
  lemma {:induction false} FailureIsFinal(items: seq<Item>, columns: nat, m: nat, n: nat)
    requires m <= n <= |items| && LayoutUpTo(items, columns, m).outcome.Fail?
    ensures LayoutUpTo(items, columns, n) == LayoutUpTo(items, columns, m)
  {
    if n > m {
      FailureIsFinal(items, columns, m, n - 1);
    }
  }

  /** Appending to the first table twice is appending the concatenation once. */
  lemma AppendToFirst(tables: seq<Table>, t: Table, rows: seq<Row>, extra: seq<Row>)
    requires tables != []
    ensures tables[0 := Table(t.columns, t.rows + rows)][0 := Table(t.columns, t.rows + rows + extra)]
         == tables[0 := Table(t.columns, t.rows + (rows + extra))]
  {
    assert t.rows + rows + extra == t.rows + (rows + extra);
  }

  /**
   * `adicionar_linha_tabela` and `adicionar_linha_mesclada` driven by the
   * items, on the first table of the document.
   */
  method AssembleDocument(editor: DocumentEditor, items: seq<Item>) returns (outcome: Outcome<string>)
    modifies editor
    ensures editor.paragraphs == old(editor.paragraphs)
    ensures old(editor.tables) == [] ==>
      editor.tables == [] && outcome == (if items == [] then Pass else Fail(NoTablesMessage))
    ensures old(editor.tables) != [] ==>
      var t := old(editor.tables)[0];
      var layout := LayoutUpTo(items, t.columns, |items|);
      outcome == layout.outcome && editor.tables == old(editor.tables)[0 := Table(t.columns, t.rows + layout.rows)]
  {
    ghost var t := if editor.tables == [] then Table(0, []) else editor.tables[0];
    if editor.tables != [] {
      assert t.rows + [] == t.rows;
      assert editor.tables[0 := Table(t.columns, t.rows + [])] == editor.tables;
    }
    var current: Option<string> := None;
    outcome := Pass;
    var k := 0;
    while k < |items|
      invariant 0 <= k <= |items| && outcome == Pass
      invariant editor.paragraphs == old(editor.paragraphs)
      invariant old(editor.tables) == [] ==> editor.tables == [] && k == 0
      invariant old(editor.tables) != [] ==>
        && LayoutUpTo(items, t.columns, k).outcome == Pass
        && current == LayoutUpTo(items, t.columns, k).current
        && editor.tables == old(editor.tables)[0 := Table(t.columns, t.rows + LayoutUpTo(items, t.columns, k).rows)]
    {
      ghost var prev := LayoutUpTo(items, t.columns, k);
      var item := items[k];
      outcome := editor.AddTableRow(item.fields);
      if outcome.Fail? {
        if old(editor.tables) != [] {
          AppendToFirst(old(editor.tables), t, prev.rows, [EmptyRow(t.columns)]);
          FailureIsFinal(items, t.columns, k + 1, |items|);
        }
        return;
      }
      AppendToFirst(old(editor.tables), t, prev.rows, [FilledRow(t.columns, item.fields)]);
      ghost var rows := prev.rows + [FilledRow(t.columns, item.fields)];
      if Some(item.asset) != current {
        if item.observation != "" {
          outcome := editor.AddMergedRow(ObsPrefix + Upper(item.observation));
          if outcome.Fail? {
            AppendToFirst(old(editor.tables), t, rows, [EmptyRow(0)]);
            FailureIsFinal(items, t.columns, k + 1, |items|);
            return;
          }
          AppendToFirst(old(editor.tables), t, rows, [ObsRow(t.columns, item.observation)]);
        }
        current := Some(item.asset);
      }
      k := k + 1;
    }
  }

  /** Item `k` begins a run of equal identifiers. */
  predicate StartsRun(items: seq<Item>, k: nat)
    requires k < |items|
  {
    k == 0 || items[k - 1].asset != items[k].asset
  }

  /**
   * The rows for the first `n` items, stated by runs rather than by
   * `patrimonio_atual`: every item's data row, followed by its OBS row when
   * it begins a run and has an observation.
   */
  function Rendered(items: seq<Item>, columns: nat, n: nat): seq<Row>
    requires n <= |items|
  {
    if n == 0 then []
    else
      Rendered(items, columns, n - 1) + [FilledRow(columns, items[n - 1].fields)]
      + (if StartsRun(items, n - 1) && items[n - 1].observation != "" then [ObsRow(columns, items[n - 1].observation)] else [])
  }

  predicate AllTriples(items: seq<Item>)
  {
    forall k :: 0 <= k < |items| ==> |items[k].fields| == 3
  }

  /**
   * For three-field items and a table with columns, the loop never raises,
   * its rows are the run-by-run rendering, and `patrimonio_atual` ends as
   * the last identifier.
   */
  lemma {:induction false} LayoutFollowsRuns(items: seq<Item>, columns: nat, n: nat)
    requires n <= |items| && columns > 0 && AllTriples(items)
    ensures LayoutUpTo(items, columns, n) == Layout(Rendered(items, columns, n), if n == 0 then None else Some(items[n - 1].asset), Pass)
  {
    if n > 0 {
      LayoutFollowsRuns(items, columns, n - 1);
    }
  }

  /** The number of data rows (as opposed to merged rows). */
  function DataRows(rows: seq<Row>): nat
  {
    if rows == [] then 0 else DataRows(rows[..|rows| - 1]) + (if rows[|rows| - 1].Plain? then 1 else 0)
  }

  lemma {:induction false} DataRowsAppend(a: seq<Row>, b: seq<Row>)
    ensures DataRows(a + b) == DataRows(a) + DataRows(b)
  {
    if b != [] {
      DataRowsAppend(a, b[..|b| - 1]);
      assert (a + b)[..|a + b| - 1] == a + b[..|b| - 1];
    } else {
      assert a + b == a;
    }
  }

  /** A data row followed by at most one merged row adds one data row. */
  lemma DataRowsStep(rows: seq<Row>, row: Row, extra: seq<Row>)
    requires row.Plain? && (extra == [] || (|extra| == 1 && extra[0].Merged?))
    ensures DataRows(rows + [row] + extra) == DataRows(rows) + 1
  {
    var front := rows + [row];
    assert front[..|front| - 1] == rows;
    if extra != [] {
      assert (front + extra)[..|front + extra| - 1] == front;
    } else {
      assert front + extra == front;
    }
  }

  /** Every item gives exactly one data row, and at most one OBS row follows it. */
  lemma {:induction false} OneDataRowPerItem(items: seq<Item>, columns: nat, n: nat)
    requires n <= |items|
    ensures DataRows(Rendered(items, columns, n)) == n
    ensures n <= |Rendered(items, columns, n)| <= 2 * n
  {
    if n > 0 {
      OneDataRowPerItem(items, columns, n - 1);
      var item := items[n - 1];
      DataRowsStep(Rendered(items, columns, n - 1), FilledRow(columns, item.fields),
        if StartsRun(items, n - 1) && item.observation != "" then [ObsRow(columns, item.observation)] else []);
    }
  }

  /**
   * Consecutive items of one identifier get one OBS row between them, and an
   * identifier that comes back after another gets its OBS row again.
   */
  lemma RunsOfIdentifiers()
    ensures var a1, a2, b := Item(["01", "Dell", "1"], "novo", "PC1"), Item(["01", "HP", "2"], "novo", "PC1"), Item(["01", "LG", "3"], "", "MO1");
      && LayoutUpTo([a1, a2], 3, 2).rows == [FilledRow(3, a1.fields), ObsRow(3, "novo"), FilledRow(3, a2.fields)]
      && LayoutUpTo([a1, b, a2], 3, 3).rows
        == [FilledRow(3, a1.fields), ObsRow(3, "novo"), FilledRow(3, b.fields), FilledRow(3, a2.fields), ObsRow(3, "novo")]
  {
    var a1, a2, b := Item(["01", "Dell", "1"], "novo", "PC1"), Item(["01", "HP", "2"], "novo", "PC1"), Item(["01", "LG", "3"], "", "MO1");
    var same, back := [a1, a2], [a1, b, a2];
    LayoutFollowsRuns(same, 3, 2);
    LayoutFollowsRuns(back, 3, 3);
    assert Rendered(same, 3, 1) == [FilledRow(3, a1.fields), ObsRow(3, "novo")];
    assert !StartsRun(same, 1);
    assert Rendered(back, 3, 1) == [FilledRow(3, a1.fields), ObsRow(3, "novo")];
    assert StartsRun(back, 1) && StartsRun(back, 2);
    assert Rendered(back, 3, 2) == [FilledRow(3, a1.fields), ObsRow(3, "novo"), FilledRow(3, b.fields)];
  }

  /**
   * With a template whose first table has columns, the items of any
   * resolution lay out without error, one data row each, by runs.
   */
  lemma ResolvedItemsLayOut(req: Request, columns: nat)
    requires columns > 0
    ensures var items := Resolve(req).items;
      && LayoutUpTo(items, columns, |items|).outcome == Pass
      && LayoutUpTo(items, columns, |items|).rows == Rendered(items, columns, |items|)
      && DataRows(LayoutUpTo(items, columns, |items|).rows) == |items|
  {
    var items := Resolve(req).items;
    ItemsAreWellFormed(req, |req.assets|);
    assert AllTriples(items) by {
      forall k | 0 <= k < |items| ensures |items[k].fields| == 3 {
        assert ItemFrom(req, |req.assets|, items[k]);
      }
    }
    LayoutFollowsRuns(items, columns, |items|);
    OneDataRowPerItem(items, columns, |items|);
  }

  // ---------------------------------------------------------------------------
  // The whole request
  // ---------------------------------------------------------------------------

  const TooManyAssetsMessage: string := "Máximo de 10 patrimônios por requisição permitido"

  /**
   * The answer to a submitted form: the collected validation errors, an
   * error on one field, or the resolution together with how the document
   * assembly ended. When the assembly raises, `resolution` records the
   * spreadsheet updates already sent; the handler answers that request with
   * its generic error 500 and reports none of them.
   */
  datatype Response =
    | InvalidForm(errors: seq<Validation.FieldError>)
    | RejectedField(field: string, message: string)
    | Completed(resolution: Resolution, document: Outcome<string>)

  /** The user data as written into the document: the phone through `formata_numero`, or empty. */
  function DocumentUser(form: Validation.Form): User
  {
    var u := NormalizeUser(form);
    u.(numero := match FormatPhone(u.numero) case Some(phone) => phone case None => "")
  }

  /** The markers replaced in the template, in the order of the dictionary. */
  function Substitutions(u: User): seq<(string, string)>
  {
    [("nome", u.nome), ("funcao", u.funcao), ("numero", u.numero), ("empresa", u.empresa)]
  }

  /** The dictionary `substituir_texto` ends up using, with today's date added. */
  function UsedSubstitutions(form: Validation.Form, today: Date): seq<(string, string)>
    requires 1 <= today.month <= 12
  {
    DictPut(Substitutions(DocumentUser(form)), "data", FormattedDate(today))
  }

  function RequestOf(form: Validation.Form, sheet: Spreadsheet): Request
  {
    Request(DocumentUser(form), form.patrimonios, form.observacoes, sheet)
  }

  /**
   * The POST branch of `index()`: validate, normalise, fill in the template,
   * refuse more than ten identifiers, resolve them, and lay out the items.
   */
  method ProcessRequest(form: Validation.Form, sheet: Spreadsheet, editor: DocumentEditor, today: Date)
    returns (response: Response)
    requires 1 <= today.month <= 12
    modifies editor
    ensures Validation.FormErrors(form) != [] ==>
      && response == InvalidForm(Validation.FormErrors(form))
      && editor.paragraphs == old(editor.paragraphs) && editor.tables == old(editor.tables)
    ensures Validation.FormErrors(form) == [] ==>
      editor.paragraphs == SubParagraphs(old(editor.paragraphs), UsedSubstitutions(form, today))
    ensures Validation.FormErrors(form) == [] && |form.patrimonios| > MaxAssetsPerRequest ==>
      && response == RejectedField("patrimonio", TooManyAssetsMessage)
      && editor.tables == SubTables(old(editor.tables), UsedSubstitutions(form, today))
    ensures Validation.FormErrors(form) == [] && |form.patrimonios| <= MaxAssetsPerRequest ==>
      var tables := SubTables(old(editor.tables), UsedSubstitutions(form, today));
      var resolution := Resolve(RequestOf(form, sheet));
      var items := resolution.items;
      if tables == [] then
        && editor.tables == []
        && response == Completed(resolution, if items == [] then Pass else Fail(NoTablesMessage))
      else
        var t := tables[0];
        var layout := LayoutUpTo(items, t.columns, |items|);
        && editor.tables == tables[0 := Table(t.columns, t.rows + layout.rows)]
        && response == Completed(resolution, layout.outcome)
  {
    var isValid, errors := Validation.ValidateFormData(form);
    if !isValid {
      return InvalidForm(errors);
    }
    var user := NormalizeUser(form);
    var formatted := FormatPhone(user.numero);
    user := user.(numero := if formatted.Some? then formatted.value else "");
    var used := editor.SubstituteText(Substitutions(user), true, today);
    if |form.patrimonios| > MaxAssetsPerRequest {
      return RejectedField("patrimonio", TooManyAssetsMessage);
    }
    var resolution := ResolveAssets(Request(user, form.patrimonios, form.observacoes, sheet));
    var outcome := AssembleDocument(editor, resolution.items);
    response := Completed(resolution, outcome);
  }
}
