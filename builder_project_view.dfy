/**
 * The builder's project page: the photo filter by year and month name, its
 * initial values, and the busy flag around a project update.
 */
module BuilderProjectView {
  import opened Wrappers
  import opened Seqs
  import opened Text
  import opened Records

  /** English month names, indexed by `Date.prototype.getMonth()`. */
  const Months: seq<string> := [
    "January", "February", "March", "April", "May", "June",
    "July", "August", "September", "October", "November", "December"
  ]

  /** The filter value that matches every year, or every month. */
  const All: string := "All"

  type MonthIndex = m: int | 0 <= m < 12

  /** A project photo with the calendar year and month of its `createdAt`. */
  datatype ProjectImage = ProjectImage(id: string, year: int, month: MonthIndex)

  /** `getFullYear().toString()`. */
  function YearString(year: int): string {
    IntToDecimal(year)
  }

  /** Twelve distinct names, none of them the sentinel. */
  lemma MonthTable()
    ensures |Months| == 12
    ensures forall i, j :: 0 <= i < j < 12 ==> Months[i] != Months[j]
    ensures All !in Months
  {
  }

  /** No year renders as the sentinel, and different years render differently. */
  lemma YearStrings(a: int, b: int)
    ensures YearString(a) != All
    ensures YearString(a) == YearString(b) ==> a == b
  {
    assert All[0] == 'A';
    if YearString(a) == YearString(b) {
      IntToDecimalInjective(a, b);
    }
  }

  /** Whether the photo gallery shows `image` under the two filters. */
  predicate Retained(image: ProjectImage, yearFilter: string, monthFilter: string) {
    && (yearFilter == All || YearString(image.year) == yearFilter)
    && (monthFilter == All || Months[image.month] == monthFilter)
  }

  /** `filteredImages`: the photos the filters retain, in their original order. */
  function FilteredImages(images: seq<ProjectImage>, yearFilter: string, monthFilter: string)
    : (r: seq<ProjectImage>)
    ensures IsSubsequence(r, images)
    ensures forall i :: 0 <= i < |r| ==> Retained(r[i], yearFilter, monthFilter)
    ensures forall image :: image in r <==> image in images && Retained(image, yearFilter, monthFilter)
    ensures forall image :: multiset(r)[image]
                         == if Retained(image, yearFilter, monthFilter) then multiset(images)[image] else 0
  {
    var keep := (image: ProjectImage) => Retained(image, yearFilter, monthFilter);
    FilterIsSubsequence(images, keep);
    FilterMembership(images, keep);
    FilterMultiplicity(images, keep);
    Filter(images, keep)
  }

  /** A year filter alone keeps exactly that year; a month filter alone keeps exactly that month, in every year. */
  lemma FilterByYearOrMonth()
    ensures forall image: ProjectImage :: Retained(image, "2024", All) <==> image.year == 2024
    ensures forall image: ProjectImage :: Retained(image, All, "March") <==> image.month == 2
  {
    MonthTable();
    assert YearString(2024) == "2024";
    forall image: ProjectImage | Retained(image, "2024", All) ensures image.year == 2024 {
      YearStrings(image.year, 2024);
    }
  }

  /** With both filters at the sentinel every photo is shown. */
  lemma AllShowsEverything(images: seq<ProjectImage>)
    ensures FilteredImages(images, All, All) == images
  {
    FilterKeepsAll(images, (image: ProjectImage) => Retained(image, All, All));
  }

  /** The initial filters: the current year, and the current month's name. */
  function InitialFilters(nowYear: int, nowMonth: MonthIndex): (string, string) {
    (YearString(nowYear), Months[nowMonth])
  }

  /** Under the initial filters a photo is shown exactly when it was taken in the current month. */
  lemma InitialFiltersShowCurrentMonth(image: ProjectImage, nowYear: int, nowMonth: MonthIndex)
    ensures var (y, m) := InitialFilters(nowYear, nowMonth);
      Retained(image, y, m) <==> image.year == nowYear && image.month == nowMonth
  {
    MonthTable();
    YearStrings(nowYear, image.year);
    YearStrings(image.year, nowYear);
  }

  /** What the view does, in order: service calls, callbacks and toasts. */
  datatype Event =
    | UpdateRequested(projectId: string, changes: Fields, busy: bool)  // `busy`: isUpdating when the service is called
    | ProjectUpdated(project: Project)                                 // onProjectUpdate
    | FailureToast

  class ViewState {
    const project: Option<Project>
    var projectImages: seq<ProjectImage>
    var yearFilter: string
    var monthFilter: string
    var isUpdating: bool
    var events: seq<Event>

    /** The first render, at calendar year `nowYear` and month `nowMonth`. */
    constructor (project: Option<Project>, projectImages: seq<ProjectImage>, nowYear: int, nowMonth: MonthIndex)
      ensures this.project == project && this.projectImages == projectImages
      ensures (yearFilter, monthFilter) == InitialFilters(nowYear, nowMonth)
      ensures !isUpdating && events == []
    {
      this.project := project;
      this.projectImages := projectImages;
      yearFilter := YearString(nowYear);
      monthFilter := Months[nowMonth];
      isUpdating := false;
      events := [];
    }

    /**
     * handleProjectUpdate, with `outcome` standing for what `updateProject`
     * returns or throws. The service is called while busy; the callback runs
     * only on success; the flag is cleared either way.
     */
    method HandleProjectUpdate(changes: Fields, outcome: Result<Project, string>)
      modifies this
      ensures projectImages == old(projectImages) && yearFilter == old(yearFilter) && monthFilter == old(monthFilter)
      ensures project.None? ==> isUpdating == old(isUpdating) && events == old(events)
      ensures project.Some? ==>
        && !isUpdating
        && events == old(events) + [UpdateRequested(project.value.id, changes, true)]
                    + (match outcome
                       case Ok(p) => [ProjectUpdated(p)]
                       case Err(_) => [FailureToast])
    {
      if project.None? {
        return;
      }
      isUpdating := true;
      events := events + [UpdateRequested(project.value.id, changes, isUpdating)];
      match outcome {
        case Ok(updated) => events := events + [ProjectUpdated(updated)];
        case Err(_) => events := events + [FailureToast];
      }
      isUpdating := false;
    }
  }
}
