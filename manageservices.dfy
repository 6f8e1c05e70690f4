/** The admin service editor (project/src/components/admin/ManageServices.tsx):
    search, the create/edit form and its submission into the service store,
    the status labels and the price total. */
module ManageServices {
  import opened Seqs
  import opened Types
  import opened Text
  import MockData
  import ServiceContext

  /** A service matches when its name or its description contains the term,
      ignoring case. */
  predicate MatchesSearch(s: Service, term: string)
    ensures term == "" ==> MatchesSearch(s, term)
    ensures MatchesSearch(s, term) ==> |term| <= |s.name| || |term| <= |s.description|
  {
    ContainsEmpty(Lower(s.name));
    ContainsLength(Lower(s.name), Lower(term));
    ContainsLength(Lower(s.description), Lower(term));
    Contains(Lower(s.name), Lower(term)) || Contains(Lower(s.description), Lower(term))
  }

  function SearchRule(term: string): Service -> bool { (s: Service) => MatchesSearch(s, term) }

  function FilteredServices(services: seq<Service>, term: string): (r: seq<Service>)
    ensures IsSubsequence(r, services)
    ensures forall s :: s in r <==> s in services && MatchesSearch(s, term)
    ensures forall s :: multiset(r)[s] == (if MatchesSearch(s, term) then multiset(services)[s] else 0)
  {
    FilterSpec(services, SearchRule(term));
    Filter(services, SearchRule(term))
  }

  /** The search ignores the case of the term. */
  lemma SearchIgnoresCase(services: seq<Service>, t1: string, t2: string)
    requires SameIgnoringCase(t1, t2)
    ensures FilteredServices(services, t1) == FilteredServices(services, t2)
  {
    FilterCongruent(services, SearchRule(t1), SearchRule(t2));
  }

  /** The empty search shows every service. */
  lemma EmptySearchShowsAll(services: seq<Service>)
    ensures FilteredServices(services, "") == services
  {
    FilterAll(services, SearchRule(""));
  }

  /** The form: every field of a service but its id. */
  datatype ServiceForm = ServiceForm(
    name: string,
    description: string,
    price: int,
    duration: int,
    image: string,
    status: ServiceStatus)

  const BlankForm: ServiceForm := ServiceForm("", "", 0, 0, "", Active)

  function FormOf(s: Service): ServiceForm
  {
    ServiceForm(s.name, s.description, s.price, s.duration, s.image, s.status)
  }

  /** Editing: the edited service's id with every other field from the form. */
  function Merged(editing: Service, f: ServiceForm): (r: Service)
    ensures r.id == editing.id && FormOf(r) == f
  {
    Service(editing.id, f.name, f.description, f.price, f.duration, f.image, f.status)
  }

  /** Creating: a fresh id (a clock value in the source) with the form. */
  function Created(id: string, f: ServiceForm): (r: Service)
    ensures r.id == id && FormOf(r) == f
  {
    Service(id, f.name, f.description, f.price, f.duration, f.image, f.status)
  }

  /** Saving an edit without changing the form gives the service back
      unchanged, and the merge depends on the edited service only through
      its id. */
  lemma MergedWithOwnForm(editing: Service, other: Service, f: ServiceForm)
    ensures Merged(editing, FormOf(editing)) == editing
    ensures other.id == editing.id ==> Merged(other, f) == Merged(editing, f)
  {
  }

  /** One input change: text fields take the text, the two number inputs a
      number, the select a status. */
  datatype FormInput =
    | NameInput(text: string)
    | DescriptionInput(text: string)
    | PriceInput(number: int)
    | DurationInput(number: int)
    | ImageInput(text: string)
    | StatusInput(choice: ServiceStatus)

  function Apply(f: ServiceForm, input: FormInput): (r: ServiceForm)
    ensures r.name == if input.NameInput? then input.text else f.name
    ensures r.description == if input.DescriptionInput? then input.text else f.description
    ensures r.price == if input.PriceInput? then input.number else f.price
    ensures r.duration == if input.DurationInput? then input.number else f.duration
    ensures r.image == if input.ImageInput? then input.text else f.image
    ensures r.status == if input.StatusInput? then input.choice else f.status
  {
    match input
    case NameInput(t) => f.(name := t)
    case DescriptionInput(t) => f.(description := t)
    case PriceInput(n) => f.(price := n)
    case DurationInput(n) => f.(duration := n)
    case ImageInput(t) => f.(image := t)
    case StatusInput(c) => f.(status := c)
  }

  /** An input changes its own field and no other: applying the inputs of a
      service's fields to any form yields that service's form. */
  lemma ApplyAllFields(f: ServiceForm, s: Service)
    ensures Apply(Apply(Apply(Apply(Apply(Apply(f,
              NameInput(s.name)), DescriptionInput(s.description)), PriceInput(s.price)),
              DurationInput(s.duration)), ImageInput(s.image)), StatusInput(s.status)) == FormOf(s)
  {
  }

  /** The image input is `type="url"`: the browser refuses to submit the
      form while it holds a non-empty value that fails the URL syntax check,
      which `urlOk` stands for. The two number inputs admit only whole
      numbers, which the integer price and duration already are. */
  predicate ImageAccepted(f: ServiceForm, urlOk: string -> bool)
  {
    f.image == "" || urlOk(f.image)
  }

  /** The status label. */
  function StatusText(st: ServiceStatus): (r: string)
    ensures r in {"Activo", "Inactivo", "Mantenimiento"}
  {
    match st
    case Active => "Activo"
    case Inactive => "Inactivo"
    case Maintenance => "Mantenimiento"
  }

  /** Different statuses have different labels. */
  lemma StatusTextInjective(a: ServiceStatus, b: ServiceStatus)
    ensures StatusText(a) == StatusText(b) <==> a == b
  {
  }

  /** The sum of the listed prices, accumulated from the first service on. */
  function TotalPrice(services: seq<Service>): (r: int)
    ensures services == [] ==> r == 0
    ensures (forall i :: 0 <= i < |services| ==> services[i].price >= 0) ==>
      r >= 0 && forall i :: 0 <= i < |services| ==> r >= services[i].price
  {
    if services == [] then 0 else TotalPrice(services[..|services| - 1]) + services[|services| - 1].price
  }

  lemma {:induction false} TotalPriceAppend(a: seq<Service>, b: seq<Service>)
    ensures TotalPrice(a + b) == TotalPrice(a) + TotalPrice(b)
    decreases |b|
  {
    if b == [] {
      assert a + b == a;
    } else {
      var b' := b[..|b| - 1];
      assert (a + b)[..|a + b| - 1] == a + b';
      TotalPriceAppend(a, b');
    }
  }

  /** Adding a service raises the total by its price. */
  lemma TotalAfterAdd(services: seq<Service>, s: Service)
    ensures TotalPrice(services + [s.(status := Active)]) == TotalPrice(services) + s.price
  {
    TotalPriceAppend(services, [s.(status := Active)]);
    assert [s.(status := Active)][..0] == [];
  }

  /** Two lists with the same prices in the same places have the same total. */
  lemma {:induction false} TotalSamePrices(a: seq<Service>, b: seq<Service>)
    requires |a| == |b|
    requires forall i :: 0 <= i < |a| ==> a[i].price == b[i].price
    ensures TotalPrice(a) == TotalPrice(b)
    decreases |a|
  {
    if a != [] {
      var n := |a| - 1;
      TotalSamePrices(a[..n], b[..n]);
    }
  }

  /** Status changes do not move the total. */
  lemma TotalIgnoresStatus(services: seq<Service>, id: string, st: ServiceStatus)
    ensures TotalPrice(ServiceContext.SetServiceStatus(services, id, st)) == TotalPrice(services)
  {
    TotalSamePrices(ServiceContext.SetServiceStatus(services, id, st), services);
  }

  /** The six seed prices add up to 230. */
  lemma SeedTotal()
    ensures TotalPrice(MockData.SeedServices) == 230
  {
    var s := MockData.SeedServices;
    assert s[..1][..0] == [];
    assert TotalPrice(s[..1]) == 35;
    assert s[..2][..1] == s[..1];
    assert TotalPrice(s[..2]) == 60;
    assert s[..3][..2] == s[..2];
    assert TotalPrice(s[..3]) == 110;
    assert s[..4][..3] == s[..3];
    assert TotalPrice(s[..4]) == 130;
    assert s[..5][..4] == s[..4];
    assert TotalPrice(s[..5]) == 170;
    assert s[..5] == s[..|s| - 1];
  }

  /** The editor: whether the form is shown, the service being edited (none
      when creating) and the form contents. */
  class Editor {
    var showForm: bool
    var editing: Option<Service>
    var form: ServiceForm

    constructor ()
      ensures !showForm && editing.None? && form == BlankForm
    {
      showForm := false;
      editing := None;
      form := BlankForm;
    }

    method NewService()
      modifies this
      ensures showForm && editing.None? && form == BlankForm
    {
      editing := None;
      form := BlankForm;
      showForm := true;
    }

    method EditService(s: Service)
      modifies this
      ensures showForm && editing == Some(s) && form == FormOf(s)
    {
      editing := Some(s);
      form := FormOf(s);
      showForm := true;
    }

    method Input(input: FormInput)
      modifies this
      ensures form == Apply(old(form), input)
      ensures showForm == old(showForm) && editing == old(editing)
    {
      form := Apply(form, input);
    }

    method Cancel()
      modifies this
      ensures !showForm && editing.None? && form == old(form)
    {
      showForm := false;
      editing := None;
    }

    /** Saving, possible only from the shown form and only when the browser
        accepts it: an edit replaces the service with the merged record; a
        new service gets `id` and goes through `addService`, which makes it
        active. The form is hidden and keeps its contents. Otherwise nothing
        happens. */
    method Submit(store: ServiceContext.ServiceStore, id: string, urlOk: string -> bool)
      modifies this, store
      ensures old(showForm) && ImageAccepted(old(form), urlOk) && old(editing).Some? ==>
        store.services == ServiceContext.ReplaceService(old(store.services), Merged(old(editing).value, old(form)))
      ensures old(showForm) && ImageAccepted(old(form), urlOk) && old(editing).None? ==>
        store.services == old(store.services) + [Created(id, old(form)).(status := Active)]
      ensures old(showForm) && ImageAccepted(old(form), urlOk) ==>
        !showForm && editing.None? && form == old(form)
      ensures !(old(showForm) && ImageAccepted(old(form), urlOk)) ==> unchanged(store) && unchanged(this)
    {
      if showForm && ImageAccepted(form, urlOk) {
        if editing.Some? {
          store.UpdateService(Merged(editing.value, form));
        } else {
          store.AddService(Created(id, form));
        }
        showForm := false;
        editing := None;
      }
    }

    /** The delete button removes the service only when the browser's
        confirmation dialog is accepted (`confirmed`). */
    method Delete(store: ServiceContext.ServiceStore, serviceId: string, confirmed: bool)
      modifies store
      ensures confirmed ==> store.services == ServiceContext.RemoveService(old(store.services), serviceId)
      ensures !confirmed ==> unchanged(store)
    {
      if confirmed {
        store.DeleteService(serviceId);
      }
    }
  }
}
