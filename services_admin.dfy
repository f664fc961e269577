/**
 * The services admin screen: its modal form, the icon picker, and the in-memory
 * create/edit of demo mode. Services carry no image, so there is no image check.
 */
module Services {
  import opened Common
  import Catalog

  datatype Service = Service(id: string, title: string, description: string, icon: string)

  /** The fields sent to the `services` collection in live mode. */
  datatype ServiceDoc = ServiceDoc(title: string, description: string, icon: string)

  /** A live-mode write: `updateDoc` on the edited service's id, or `addDoc`. */
  datatype StoreWrite = Update(id: string, doc: ServiceDoc) | Add(doc: ServiceDoc)

  /** How a submit ends: success or the catch branch. */
  datatype SubmitOutcome = Saved | Failed

  /** The modal's form state, gathered for stating what a handler leaves unchanged. */
  datatype ServiceForm = ServiceForm(title: string, description: string, icon: string,
                                     currentService: Option<Service>, isEditing: bool)

  /** One button of the icon picker. */
  datatype IconOption = IconOption(value: string, caption: string)

  const DefaultIcon := "Wrench"

  const EmptyForm := ServiceForm("", "", DefaultIcon, None, false)

  /** The picker's nine choices, in display order. */
  const IconOptions: seq<IconOption> := [
    IconOption("Palette", "Design"),
    IconOption("VideoCamera", "Video"),
    IconOption("MegaphoneSimple", "Marketing"),
    IconOption("Printer", "Printing"),
    IconOption("Briefcase", "Business"),
    IconOption("Camera", "Photography"),
    IconOption("Wrench", "Services"),
    IconOption("Globe", "Web"),
    IconOption("Crown", "Premium")
  ]

  /** An icon the picker can select: one of its nine values. */
  function IsIconOption(icon: string): (b: bool)
    ensures b <==> icon in ["Palette", "VideoCamera", "MegaphoneSimple", "Printer", "Briefcase",
                            "Camera", "Wrench", "Globe", "Crown"]
  {
    var values := ["Palette", "VideoCamera", "MegaphoneSimple", "Printer", "Briefcase",
                   "Camera", "Wrench", "Globe", "Crown"];
    assert forall k :: 0 <= k < |IconOptions| ==> IconOptions[k].value == values[k];
    exists k :: 0 <= k < |IconOptions| && IconOptions[k].value == icon
  }

  /** The default icon is itself one of the picker's choices, and the nine values are distinct. */
  lemma DefaultIconIsOption()
    ensures IsIconOption(DefaultIcon)
    ensures |IconOptions| == 9
    ensures forall j, k :: 0 <= j < k < |IconOptions| ==> IconOptions[j].value != IconOptions[k].value
  {
  }

  function ServiceId(s: Service): (id: string)
  {
    s.id
  }

  /** The demo edit's replacement: `{...current, title, description, icon}`. */
  function EditedService(current: Service, title: string, description: string, icon: string): (s: Service)
    ensures s == current.(title := title, description := description, icon := icon)
  {
    Service(current.id, title, description, icon)
  }

  /** The demo create's new service, with id `demo-${now}`. */
  function NewDemoService(now: nat, title: string, description: string, icon: string): (s: Service)
    ensures Catalog.DemoPrefix <= s.id
    ensures s.title == title && s.description == description && s.icon == icon
  {
    Service(Catalog.DemoId(now), title, description, icon)
  }

  /**
   * The demo edit of a list: same length; every service with the edited id takes the form's
   * fields and keeps that id; every other service is untouched.
   */
  lemma DemoEditTouchesOnlyMatch(list: seq<Service>, current: Service, title: string, description: string,
                                 icon: string)
    ensures var r := Catalog.ReplaceWhere(list, ServiceId, current.id, EditedService(current, title, description, icon));
            |r| == |list|
            && (forall i :: 0 <= i < |list| ==> r[i].id == list[i].id)
            && (forall i :: 0 <= i < |list| && list[i].id != current.id ==> r[i] == list[i])
            && (forall i :: 0 <= i < |list| && list[i].id == current.id ==>
                  r[i] == Service(current.id, title, description, icon))
  {
  }

  /** No two services of the list share an id. */
  predicate DistinctIds(list: seq<Service>)
  {
    forall i, j :: 0 <= i < j < |list| ==> list[i].id != list[j].id
  }

  /** A demo create keeps the ids distinct when no service already carries the new `demo-` id. */
  lemma DemoCreateKeepsDistinctIds(list: seq<Service>, now: nat, title: string, description: string, icon: string)
    requires DistinctIds(list)
    requires forall i :: 0 <= i < |list| ==> list[i].id != Catalog.DemoId(now)
    ensures DistinctIds([NewDemoService(now, title, description, icon)] + list)
  {
  }

  /**
   * On a list with distinct ids, the demo edit keeps the ids distinct and changes at most
   * one service: of any two positions, one is untouched.
   */
  lemma DemoEditKeepsDistinctIds(list: seq<Service>, current: Service, title: string, description: string,
                                 icon: string)
    requires DistinctIds(list)
    ensures var r := Catalog.ReplaceWhere(list, ServiceId, current.id, EditedService(current, title, description, icon));
            DistinctIds(r) && forall i, j :: 0 <= i < j < |list| ==> r[i] == list[i] || r[j] == list[j]
  {
  }

  /** The state of the `ServicesAdmin` component. */
  class ServicesAdmin {
    const demoMode: bool
    var services: seq<Service>
    var loading: bool
    var isModalOpen: bool
    var isEditing: bool
    var currentService: Option<Service>
    var title: string
    var description: string
    var icon: string

    /** Editing exactly when a service is being edited. */
    ghost predicate Valid()
      reads this
    {
      isEditing <==> currentService.Some?
    }

    ghost function Form(): ServiceForm
      reads this
    {
      ServiceForm(title, description, icon, currentService, isEditing)
    }

    constructor (demoMode: bool)
      ensures Valid() && this.demoMode == demoMode
      ensures services == [] && loading && !isModalOpen && Form() == EmptyForm
    {
      this.demoMode := demoMode;
      services := [];
      loading := true;
      isModalOpen := false;
      isEditing := false;
      currentService := None;
      title, description, icon := "", "", DefaultIcon;
    }

    /** The realtime listener delivers the whole collection. */
    method OnSnapshot(list: seq<Service>)
      requires Valid()
      modifies this
      ensures Valid() && services == list && !loading
      ensures isModalOpen == old(isModalOpen) && Form() == old(Form())
    {
      services := list;
      loading := false;
    }

    /** The listener's error callback only ends loading. */
    method OnSnapshotError()
      requires Valid()
      modifies this
      ensures Valid() && !loading
      ensures services == old(services) && isModalOpen == old(isModalOpen) && Form() == old(Form())
    {
      loading := false;
    }

    /**
     * The end of `fetchServices`, the re-read started after a live save: the documents read
     * (`None` when `getDocs` rejects, which keeps the list) and, in either case, loading off.
     */
    method OnFetchSettled(read: Option<seq<Service>>)
      requires Valid()
      modifies this
      ensures Valid() && !loading
      ensures read.Some? ==> services == read.value
      ensures read.None? ==> services == old(services)
      ensures isModalOpen == old(isModalOpen) && Form() == old(Form())
    {
      if read.Some? {
        services := read.value;
      }
      loading := false;
    }

    method SetTitle(value: string)
      requires Valid()
      modifies this
      ensures Valid() && Form() == old(Form()).(title := value)
      ensures services == old(services) && loading == old(loading) && isModalOpen == old(isModalOpen)
    {
      title := value;
    }

    method SetDescription(value: string)
      requires Valid()
      modifies this
      ensures Valid() && Form() == old(Form()).(description := value)
      ensures services == old(services) && loading == old(loading) && isModalOpen == old(isModalOpen)
    {
      description := value;
    }

    /** A click on the picker's button number `k` selects that option's icon. */
    method SelectIcon(k: nat)
      requires Valid() && k < |IconOptions|
      modifies this
      ensures Valid() && icon == IconOptions[k].value && IsIconOption(icon)
      ensures Form() == old(Form()).(icon := icon)
      ensures services == old(services) && loading == old(loading) && isModalOpen == old(isModalOpen)
    {
      icon := IconOptions[k].value;
    }

    method ResetForm()
      modifies this
      ensures Valid() && Form() == EmptyForm
      ensures services == old(services) && loading == old(loading) && isModalOpen == old(isModalOpen)
    {
      title, description, icon := "", "", DefaultIcon;
      currentService := None;
      isEditing := false;
    }

    /** Opens the modal, prefilled from `service` (icon `'Wrench'` when it has none) or reset. */
    method OpenModal(service: Option<Service>)
      modifies this
      ensures Valid() && isModalOpen
      ensures service.None? ==> Form() == EmptyForm
      ensures service.Some? ==>
        var s := service.value;
        Form() == ServiceForm(s.title, s.description, Or(s.icon, DefaultIcon), service, true)
      ensures services == old(services) && loading == old(loading)
    {
      if service.Some? {
        var s := service.value;
        isEditing := true;
        currentService := service;
        title := s.title;
        description := s.description;
        icon := Or(s.icon, DefaultIcon);
      } else {
        ResetForm();
      }
      isModalOpen := true;
    }

    method CloseModal()
      modifies this
      ensures Valid() && !isModalOpen && Form() == EmptyForm
      ensures services == old(services) && loading == old(loading)
    {
      isModalOpen := false;
      ResetForm();
    }

    /**
     * Submitting the form. Title and description are non-empty, as the browser enforces for
     * the required inputs before the handler runs. `now` is the clock reading used for a demo
     * id; `storeOk` says whether the live write succeeds.
     */
    method Submit(now: nat, storeOk: bool) returns (outcome: SubmitOutcome, written: Option<StoreWrite>)
      requires Valid() && title != "" && description != ""
      modifies this
      ensures Valid()
      // a live save starts the re-read (`fetchServices`), which shows the spinner until it settles
      ensures outcome == Saved && !demoMode ==> loading
      ensures !(outcome == Saved && !demoMode) ==> loading == old(loading)
      ensures outcome == Failed <==> !demoMode && !storeOk
      ensures outcome == Failed ==>
        written.None? && services == old(services) && isModalOpen == old(isModalOpen) && Form() == old(Form())
      ensures outcome == Saved ==> !isModalOpen && Form() == EmptyForm
      ensures outcome == Saved && demoMode && old(isEditing && currentService.Some?) ==>
        written.None? &&
        services == Catalog.ReplaceWhere(old(services), ServiceId, old(currentService.value.id),
                      EditedService(old(currentService.value), old(title), old(description), old(icon)))
      ensures outcome == Saved && demoMode && !old(isEditing && currentService.Some?) ==>
        written.None? &&
        services == [NewDemoService(now, old(title), old(description), old(icon))] + old(services)
      // a demo save keeps the ids distinct, provided a create's clock reading gives a fresh id
      ensures outcome == Saved && demoMode && old(DistinctIds(services))
              && (forall i :: 0 <= i < |old(services)| ==> old(services)[i].id != Catalog.DemoId(now)) ==>
        DistinctIds(services)
      ensures outcome == Saved && !demoMode ==>
        services == old(services) &&
        var doc := ServiceDoc(old(title), old(description), old(icon));
        written == if old(isEditing && currentService.Some?) then Some(Update(old(currentService.value.id), doc))
                   else Some(Add(doc))
    {
      if demoMode {
        if isEditing && currentService.Some? {
          var cs := currentService.value;
          if DistinctIds(services) {
            DemoEditKeepsDistinctIds(services, cs, title, description, icon);
          }
          services := Catalog.ReplaceWhere(services, ServiceId, cs.id, EditedService(cs, title, description, icon));
        } else {
          if DistinctIds(services) && forall i :: 0 <= i < |services| ==> services[i].id != Catalog.DemoId(now) {
            DemoCreateKeepsDistinctIds(services, now, title, description, icon);
          }
          services := [NewDemoService(now, title, description, icon)] + services;
        }
        written := None;
      } else {
        if !storeOk {
          outcome, written := Failed, None;
          return;
        }
        var doc := ServiceDoc(title, description, icon);
        written := if isEditing && currentService.Some? then Some(Update(currentService.value.id, doc))
                   else Some(Add(doc));
      }
      CloseModal();
      if !demoMode {
        loading := true;
      }
      outcome := Saved;
    }
  }
}
