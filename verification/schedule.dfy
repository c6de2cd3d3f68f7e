/** The front end's schedule logic (public/script.js, and the older script.js
    that differs only in its group selection): filtering by group and week,
    grouping by date, the calendar's row order, the group lists and the colour
    of each group. */
module Schedule {
  import opened Values
  import opened Text
  import opened Week

  // ---------------------------------------------------------------------------
  // The payload: programa -> nivel -> cursos -> actividades. JavaScript objects
  // become sequences of entries in `Object.keys` order.

  datatype Activity = Activity(grupo: string, fechaInicio: string, fechaFin: string, tipo: string)

  datatype Course = Course(nombreAsignatura: string, nombreProfesor: string, capacidad: int,
                           actividades: seq<Activity>)

  /** A level holds an array of courses, or something else that is skipped. */
  datatype LevelValue = Courses(cursos: seq<Course>) | NotAnArray

  datatype Level = Level(nivel: string, value: LevelValue)

  datatype Program = Program(programa: string, niveles: seq<Level>)

  type Schedule = seq<Program>

  /** `datos` as the filter receives it: null/undefined, an empty array, or a
      value whose schedule object is `datos[0]` (or `datos` itself). */
  datatype Datos = Missing | EmptyList | Data(schedule: Schedule)

  // ---------------------------------------------------------------------------
  // Which activities pass

  /** The group selection: a set of checked groups (public/script.js) or the
      value of a single select, "" meaning all groups (script.js). */
  datatype Selection = AnyOf(grupos: seq<string>) | Only(grupo: string)

  /** The groups a selection names; none named means no group filter. */
  function Named(sel: Selection): seq<string>
  {
    match sel
    case AnyOf(gs) => gs
    case Only(g) => if g == "" then [] else [g]
  }

  /** Both variants: with nothing selected every group passes, otherwise
      exactly the selected groups do. */
  function PassesGroup(sel: Selection, grupo: string): (p: bool)
    ensures p <==> Named(sel) == [] || grupo in Named(sel)
  {
    match sel
    case AnyOf(gs) => |gs| == 0 || grupo in gs
    case Only(g) => g == "" || grupo == g
  }

  /** The single select of script.js is the multi-select with at most one box
      checked: "" checks none. */
  lemma SingleSelectionAsSet(g: string, grupo: string)
    ensures PassesGroup(Only(g), grupo) <==> PassesGroup(AnyOf(if g == "" then [] else [g]), grupo)
    ensures g != "" ==> (PassesGroup(Only(g), grupo) <==> grupo == g)
  {
  }

  /** Everything the filter consults besides the data: the selection, today,
      the week offset, and the parse of a "YYYY-MM-DD" date to a day (None for
      an invalid date). */
  datatype WeekFilter = WeekFilter(sel: Selection, today: int, offset: int, dayOf: string -> Option<int>)

  /** An activity is kept when its group passes and the day of its start's
      date part is a valid date within the shown week's Monday to Sunday. */
  function Keep(f: WeekFilter, a: Activity): (k: bool)
    ensures k <==>
              && PassesGroup(f.sel, a.grupo)
              && f.dayOf(DatePrefix(a.fechaInicio)).Some?
              && GetSemana(f.today, f.offset).lunes <= f.dayOf(DatePrefix(a.fechaInicio)).value
              && f.dayOf(DatePrefix(a.fechaInicio)).value <= GetSemana(f.today, f.offset).domingo
  {
    var d := f.dayOf(DatePrefix(a.fechaInicio));
    var w := GetSemana(f.today, f.offset);
    if d.Some? && w.lunes <= d.value <= w.domingo then
      MondayOfUnique(w.lunes, d.value);
      PassesGroup(f.sel, a.grupo) && FechaEstaEnSemana(d, f.today, f.offset)
    else
      PassesGroup(f.sel, a.grupo) && FechaEstaEnSemana(d, f.today, f.offset)
  }

  // ---------------------------------------------------------------------------
  // The filter, level by level

  /** `curso.actividades.filter(...)`. */
  function FilterActivities(acts: seq<Activity>, f: WeekFilter): (r: seq<Activity>)
    ensures |r| <= |acts|
    ensures forall i :: 0 <= i < |r| ==> Keep(f, r[i])
  {
    if acts == [] then []
    else
      var n := |acts| - 1;
      FilterActivities(acts[..n], f) + (if Keep(f, acts[n]) then [acts[n]] else [])
  }

  /** Each passing activity survives as often as it occurs; no other does. */
  lemma {:induction false} FilterActivitiesCount(acts: seq<Activity>, f: WeekFilter, a: Activity)
    ensures multiset(FilterActivities(acts, f))[a] == if Keep(f, a) then multiset(acts)[a] else 0
  {
    if acts != [] {
      var n := |acts| - 1;
      assert acts == acts[..n] + [acts[n]];
      FilterActivitiesCount(acts[..n], f, a);
    }
  }

  lemma FilterActivitiesSnoc(acts: seq<Activity>, x: Activity, f: WeekFilter)
    ensures FilterActivities(acts + [x], f) == FilterActivities(acts, f) + (if Keep(f, x) then [x] else [])
  {
    assert (acts + [x])[..|acts|] == acts;
  }

  lemma {:induction false} FilterActivitiesAppend(a: seq<Activity>, b: seq<Activity>, f: WeekFilter)
    ensures FilterActivities(a + b, f) == FilterActivities(a, f) + FilterActivities(b, f)
  {
    if b == [] {
      assert a + b == a;
      assert FilterActivities(a, f) + [] == FilterActivities(a, f);
    } else {
      var n := |b| - 1;
      var x := b[n];
      assert b == b[..n] + [x];
      assert a + b == (a + b[..n]) + [x];
      FilterActivitiesAppend(a, b[..n], f);
      FilterActivitiesSnoc(a + b[..n], x, f);
      FilterActivitiesSnoc(b[..n], x, f);
      var last := if Keep(f, x) then [x] else [];
      calc {
        FilterActivities(a + b, f);
        FilterActivities(a + b[..n], f) + last;
        (FilterActivities(a, f) + FilterActivities(b[..n], f)) + last;
        FilterActivities(a, f) + (FilterActivities(b[..n], f) + last);
        FilterActivities(a, f) + FilterActivities(b, f);
      }
    }
  }

  /** An activity is in the filtered list exactly when it was in the list and
      passes. */
  lemma FilterActivitiesMembers(acts: seq<Activity>, f: WeekFilter)
    ensures forall a :: a in FilterActivities(acts, f) <==> a in acts && Keep(f, a)
  {
    forall a ensures a in FilterActivities(acts, f) <==> a in acts && Keep(f, a) {
      FilterActivitiesCount(acts, f, a);
      assert a in FilterActivities(acts, f) <==> multiset(FilterActivities(acts, f))[a] > 0;
    }
  }

  /** `{...curso, actividades: actividadesFiltradas}`: the course's other
      fields unchanged, its activities those that pass, in their order. */
  function FilterCourse(c: Course, f: WeekFilter): (r: Course)
    ensures r.nombreAsignatura == c.nombreAsignatura && r.nombreProfesor == c.nombreProfesor
    ensures r.capacidad == c.capacidad
    ensures forall a :: a in r.actividades <==> a in c.actividades && Keep(f, a)
  {
    FilterActivitiesMembers(c.actividades, f);
    c.(actividades := FilterActivities(c.actividades, f))
  }

  /** `cursos.map(...).filter(curso => curso.actividades.length > 0)`. */
  function FilterCourses(cs: seq<Course>, f: WeekFilter): (r: seq<Course>)
    ensures |r| <= |cs|
  {
    if cs == [] then []
    else
      var n := |cs| - 1;
      var c' := FilterCourse(cs[n], f);
      FilterCourses(cs[..n], f) + (if |c'.actividades| > 0 then [c'] else [])
  }

  /** Every course kept is an input course with its activities filtered. */
  lemma {:induction false} FilterCoursesFrom(cs: seq<Course>, f: WeekFilter, c': Course)
    requires c' in FilterCourses(cs, f)
    ensures |c'.actividades| > 0
    ensures exists c :: c in cs && c' == FilterCourse(c, f)
  {
    var n := |cs| - 1;
    if c' !in FilterCourses(cs[..n], f) {
      assert c' == FilterCourse(cs[n], f);
    } else {
      FilterCoursesFrom(cs[..n], f, c');
      var c :| c in cs[..n] && c' == FilterCourse(c, f);
      assert c in cs;
    }
  }

  /** The levels of one program: non-arrays are skipped and levels left
      without courses are not written. */
  function FilterLevels(ls: seq<Level>, f: WeekFilter): (r: seq<Level>)
    ensures |r| <= |ls|
  {
    if ls == [] then []
    else
      var n := |ls| - 1;
      FilterLevels(ls[..n], f) + LevelStep(ls[n], f)
  }

  function LevelStep(l: Level, f: WeekFilter): seq<Level>
  {
    if l.value.Courses? && |FilterCourses(l.value.cursos, f)| > 0
    then [Level(l.nivel, Courses(FilterCourses(l.value.cursos, f)))]
    else []
  }

  /** Every level kept is an input level holding an array, under the same
      name, with its courses filtered. */
  lemma {:induction false} FilterLevelsFrom(ls: seq<Level>, f: WeekFilter, l': Level)
    requires l' in FilterLevels(ls, f)
    ensures l'.value.Courses? && |l'.value.cursos| > 0
    ensures exists l :: l in ls && l.value.Courses? && l.nivel == l'.nivel
                        && l'.value == Courses(FilterCourses(l.value.cursos, f))
  {
    var n := |ls| - 1;
    if l' !in FilterLevels(ls[..n], f) {
      assert l' in LevelStep(ls[n], f);
      assert ls[n] in ls;
    } else {
      FilterLevelsFrom(ls[..n], f, l');
      var l :| l in ls[..n] && l.value.Courses? && l.nivel == l'.nivel
               && l'.value == Courses(FilterCourses(l.value.cursos, f));
      assert l in ls;
    }
  }

  /** Filtering one more level writes it when it is an array with courses
      left, and nothing otherwise. */
  lemma FilterLevelsStep(ls: seq<Level>, j: int, f: WeekFilter)
    requires 0 <= j < |ls|
    ensures var l := ls[j];
            l.value.Courses? && |FilterCourses(l.value.cursos, f)| > 0 ==>
              FilterLevels(ls[..j + 1], f)
                == FilterLevels(ls[..j], f) + [Level(l.nivel, Courses(FilterCourses(l.value.cursos, f)))]
    ensures var l := ls[j];
            !(l.value.Courses? && |FilterCourses(l.value.cursos, f)| > 0) ==>
              FilterLevels(ls[..j + 1], f) == FilterLevels(ls[..j], f)
  {
    assert ls[..j + 1][..j] == ls[..j];
    assert FilterLevels(ls[..j], f) + [] == FilterLevels(ls[..j], f);
  }

  /** Every program is written, even when all its levels were dropped. */
  function FilterPrograms(ps: Schedule, f: WeekFilter): (r: Schedule)
    ensures |r| == |ps|
  {
    if ps == [] then []
    else
      var n := |ps| - 1;
      FilterPrograms(ps[..n], f) + [Program(ps[n].programa, FilterLevels(ps[n].niveles, f))]
  }

  /** Programs keep their names and their order. */
  lemma {:induction false} FilterProgramsKeepsNames(ps: Schedule, f: WeekFilter)
    ensures forall i :: 0 <= i < |ps| ==> FilterPrograms(ps, f)[i].programa == ps[i].programa
  {
    if ps != [] {
      var n := |ps| - 1;
      FilterProgramsKeepsNames(ps[..n], f);
    }
  }

  lemma FilterProgramsStep(ps: Schedule, i: int, f: WeekFilter)
    requires 0 <= i < |ps|
    ensures FilterPrograms(ps[..i + 1], f)
            == FilterPrograms(ps[..i], f) + [Program(ps[i].programa, FilterLevels(ps[i].niveles, f))]
  {
    assert ps[..i + 1][..i] == ps[..i];
  }

  /** The levels of one program, filtered one at a time. */
  method FiltrarNiveles(niveles: seq<Level>, f: WeekFilter) returns (nivelesFiltrados: seq<Level>)
    ensures nivelesFiltrados == FilterLevels(niveles, f)
  {
    nivelesFiltrados := [];
    var j := 0;
    while j < |niveles|
      invariant 0 <= j <= |niveles|
      invariant nivelesFiltrados == FilterLevels(niveles[..j], f)
    {
      var l := niveles[j];
      FilterLevelsStep(niveles, j, f);
      if l.value.Courses? {
        var cursosFiltrados := FilterCourses(l.value.cursos, f);
        if |cursosFiltrados| > 0 {
          nivelesFiltrados := nivelesFiltrados + [Level(l.nivel, Courses(cursosFiltrados))];
        }
      }
      j := j + 1;
    }
    assert niveles[..j] == niveles;
  }

  /** `filtrarPorGrupoYSemana(datos, seleccion, semanaOffset)`. */
  method FiltrarPorGrupoYSemana(datos: Datos, f: WeekFilter) returns (r: Datos)
    ensures datos.Missing? || datos.EmptyList? ==> r == datos
    ensures datos.Data? ==> r == Data(FilterPrograms(datos.schedule, f))
  {
    if !datos.Data? {
      return datos;
    }
    var s := datos.schedule;
    var filtrados: Schedule := [];
    var i := 0;
    while i < |s|
      invariant 0 <= i <= |s|
      invariant filtrados == FilterPrograms(s[..i], f)
    {
      var nivelesFiltrados := FiltrarNiveles(s[i].niveles, f);
      FilterProgramsStep(s, i, f);
      filtrados := filtrados + [Program(s[i].programa, nivelesFiltrados)];
      i := i + 1;
    }
    assert s[..i] == s;
    r := Data(filtrados);
  }

  // ---------------------------------------------------------------------------
  // What the filter keeps, read back through the flattened activity list

  function CourseActivities(cs: seq<Course>): seq<Activity>
  {
    if cs == [] then [] else CourseActivities(cs[..|cs| - 1]) + cs[|cs| - 1].actividades
  }

  /** The activities of one level; none when it is not an array. */
  function LevelOwn(l: Level): seq<Activity>
  {
    if l.value.Courses? then CourseActivities(l.value.cursos) else []
  }

  function LevelActivities(ls: seq<Level>): seq<Activity>
  {
    if ls == [] then [] else LevelActivities(ls[..|ls| - 1]) + LevelOwn(ls[|ls| - 1])
  }

  lemma LevelActivitiesSnoc(ls: seq<Level>, l: Level)
    ensures LevelActivities(ls + [l]) == LevelActivities(ls) + LevelOwn(l)
  {
    assert (ls + [l])[..|ls|] == ls;
  }

  /** A level's step writes at most one level, holding exactly the level's
      activities that pass. */
  lemma LevelStepActivities(l: Level, f: WeekFilter)
    ensures LevelStep(l, f) == [] ==> FilterActivities(LevelOwn(l), f) == []
    ensures LevelStep(l, f) != [] ==>
              |LevelStep(l, f)| == 1 && LevelOwn(LevelStep(l, f)[0]) == FilterActivities(LevelOwn(l), f)
  {
    if l.value.Courses? {
      FilterCoursesActivities(l.value.cursos, f);
    }
  }

  /** All activities of a schedule in traversal order. */
  function ScheduleActivities(s: Schedule): seq<Activity>
  {
    if s == [] then [] else ScheduleActivities(s[..|s| - 1]) + LevelActivities(s[|s| - 1].niveles)
  }

  lemma {:induction false} FilterCoursesActivities(cs: seq<Course>, f: WeekFilter)
    ensures CourseActivities(FilterCourses(cs, f)) == FilterActivities(CourseActivities(cs), f)
  {
    if cs != [] {
      var n := |cs| - 1;
      var head := FilterCourses(cs[..n], f);
      var c' := FilterCourse(cs[n], f);
      FilterCoursesActivities(cs[..n], f);
      FilterActivitiesAppend(CourseActivities(cs[..n]), cs[n].actividades, f);
      if |c'.actividades| > 0 {
        assert (head + [c'])[..|head|] == head;
      } else {
        assert head + [] == head;
      }
    }
  }

  lemma {:induction false} FilterLevelsActivities(ls: seq<Level>, f: WeekFilter)
    ensures LevelActivities(FilterLevels(ls, f)) == FilterActivities(LevelActivities(ls), f)
  {
    if ls != [] {
      var n := |ls| - 1;
      var head := FilterLevels(ls[..n], f);
      var step := LevelStep(ls[n], f);
      FilterLevelsActivities(ls[..n], f);
      LevelStepActivities(ls[n], f);
      FilterActivitiesAppend(LevelActivities(ls[..n]), LevelOwn(ls[n]), f);
      var added := FilterActivities(LevelOwn(ls[n]), f);
      if step == [] {
        assert head + step == head;
        assert LevelActivities(head) + added == LevelActivities(head);
      } else {
        assert head + step == head + [step[0]];
        LevelActivitiesSnoc(head, step[0]);
      }
      calc {
        LevelActivities(FilterLevels(ls, f));
        LevelActivities(head + step);
        LevelActivities(head) + added;
        FilterActivities(LevelActivities(ls[..n]), f) + FilterActivities(LevelOwn(ls[n]), f);
        FilterActivities(LevelActivities(ls[..n]) + LevelOwn(ls[n]), f);
        FilterActivities(LevelActivities(ls), f);
      }
    }
  }

  /** The filter keeps exactly the activities that pass, each as often as in
      the input and in the input's order. */
  lemma FilterKeepsPassingActivities(s: Schedule, f: WeekFilter, a: Activity)
    ensures ScheduleActivities(FilterPrograms(s, f)) == FilterActivities(ScheduleActivities(s), f)
    ensures multiset(ScheduleActivities(FilterPrograms(s, f)))[a]
            == if Keep(f, a) then multiset(ScheduleActivities(s))[a] else 0
  {
    FilterSchedulesActivities(s, f);
    FilterActivitiesCount(ScheduleActivities(s), f, a);
  }

  lemma {:induction false} FilterSchedulesActivities(s: Schedule, f: WeekFilter)
    ensures ScheduleActivities(FilterPrograms(s, f)) == FilterActivities(ScheduleActivities(s), f)
  {
    if s != [] {
      var n := |s| - 1;
      var head := FilterPrograms(s[..n], f);
      FilterSchedulesActivities(s[..n], f);
      FilterLevelsActivities(s[n].niveles, f);
      FilterActivitiesAppend(ScheduleActivities(s[..n]), LevelActivities(s[n].niveles), f);
      var last := Program(s[n].programa, FilterLevels(s[n].niveles, f));
      assert (head + [last])[..|head|] == head;
    }
  }

  // ---------------------------------------------------------------------------
  // organizarPorFecha: activities grouped by the date part of fecha_inicio

  /** An activity as placed under its date, with its course's fields. */
  datatype Placed = Placed(actividad: Activity, nombreAsignatura: string, nombreProfesor: string, capacidad: int)

  function Enriched(acts: seq<Activity>, c: Course): (r: seq<Placed>)
  {
    seq(|acts|, i requires 0 <= i < |acts| => Placed(acts[i], c.nombreAsignatura, c.nombreProfesor, c.capacidad))
  }

  function CoursesPlaced(cs: seq<Course>): seq<Placed>
  {
    if cs == [] then [] else CoursesPlaced(cs[..|cs| - 1]) + Enriched(cs[|cs| - 1].actividades, cs[|cs| - 1])
  }

  function LevelsPlaced(ls: seq<Level>): seq<Placed>
  {
    if ls == [] then []
    else
      var l := ls[|ls| - 1];
      LevelsPlaced(ls[..|ls| - 1]) + (if l.value.Courses? then CoursesPlaced(l.value.cursos) else [])
  }

  /** Every activity of the schedule, enriched, in traversal order. */
  function SchedulePlaced(s: Schedule): seq<Placed>
  {
    if s == [] then [] else SchedulePlaced(s[..|s| - 1]) + LevelsPlaced(s[|s| - 1].niveles)
  }

  function Fecha(p: Placed): string
  {
    DatePrefix(p.actividad.fechaInicio)
  }

  /** The activities of `flat` on date `d`, in order. */
  function OnDate(flat: seq<Placed>, d: string): (r: seq<Placed>)
    ensures |r| <= |flat|
    ensures forall i :: 0 <= i < |r| ==> Fecha(r[i]) == d
  {
    if flat == [] then []
    else
      var n := |flat| - 1;
      OnDate(flat[..n], d) + (if Fecha(flat[n]) == d then [flat[n]] else [])
  }

  /** Each activity appears under its own date as often as it occurs, and
      under no other date. */
  lemma {:induction false} OnDateCount(flat: seq<Placed>, d: string, p: Placed)
    ensures multiset(OnDate(flat, d))[p] == if Fecha(p) == d then multiset(flat)[p] else 0
  {
    if flat != [] {
      var n := |flat| - 1;
      assert flat == flat[..n] + [flat[n]];
      OnDateCount(flat[..n], d, p);
    }
  }

  /** The dates of `flat` in order of first appearance. */
  function Dates(flat: seq<Placed>): (ds: seq<string>)
    ensures Distinct(ds)
  {
    if flat == [] then []
    else
      var n := |flat| - 1;
      var ds := Dates(flat[..n]);
      if Fecha(flat[n]) in ds then ds else ds + [Fecha(flat[n])]
  }

  /** A date is listed exactly when some activity falls on it. */
  lemma {:induction false} DatesMembers(flat: seq<Placed>, d: string)
    ensures d in Dates(flat) <==> exists i :: 0 <= i < |flat| && Fecha(flat[i]) == d
  {
    if flat != [] {
      var n := |flat| - 1;
      DatesMembers(flat[..n], d);
      if d in Dates(flat[..n]) {
        var i :| 0 <= i < n && Fecha(flat[..n][i]) == d;
        assert Fecha(flat[i]) == d;
      }
      if exists i :: 0 <= i < |flat| && Fecha(flat[i]) == d {
        var i :| 0 <= i < |flat| && Fecha(flat[i]) == d;
        if i < n {
          assert Fecha(flat[..n][i]) == d;
        }
      }
    }
  }

  lemma DatesEmpty(flat: seq<Placed>)
    ensures Dates(flat) == [] <==> flat == []
  {
    if flat != [] {
      DatesMembers(flat, Fecha(flat[0]));
    }
  }

  /** A date has activities exactly when it is one of the dates. */
  lemma OnDateNonEmpty(flat: seq<Placed>, d: string)
    ensures OnDate(flat, d) != [] <==> d in Dates(flat)
  {
    var r := OnDate(flat, d);
    DatesMembers(flat, d);
    if r != [] {
      OnDateCount(flat, d, r[0]);
      assert r[0] in multiset(r);
      assert r[0] in multiset(flat);
      var i :| 0 <= i < |flat| && flat[i] == r[0];
    }
    if d in Dates(flat) {
      var i :| 0 <= i < |flat| && Fecha(flat[i]) == d;
      OnDateCount(flat, d, flat[i]);
      assert flat[i] in multiset(flat);
      assert flat[i] in multiset(r);
    }
  }

  /** The dictionary being built: its keys are the dates seen so far, in
      insertion order, and under each date the activities on it, in order. */
  ghost predicate Grouped(acc: map<string, seq<Placed>>, fechas: seq<string>, flat: seq<Placed>)
  {
    && fechas == Dates(flat)
    && (forall d :: d in acc <==> d in fechas)
    && (forall d :: d in acc ==> acc[d] == OnDate(flat, d))
  }

  lemma OnDateSnoc(flat: seq<Placed>, p: Placed, d: string)
    ensures OnDate(flat + [p], d) == OnDate(flat, d) + (if Fecha(p) == d then [p] else [])
  {
    assert (flat + [p])[..|flat|] == flat;
  }

  lemma DatesSnoc(flat: seq<Placed>, p: Placed)
    ensures Dates(flat + [p]) == if Fecha(p) in Dates(flat) then Dates(flat) else Dates(flat) + [Fecha(p)]
  {
    assert (flat + [p])[..|flat|] == flat;
  }

  /** The dictionary `organizarPorFecha` builds from the activities `flat`, one
      push at a time: the date's list is created when missing, then the
      activity is pushed onto it. */
  function ByDate(flat: seq<Placed>): (acc: map<string, seq<Placed>>)
    ensures forall d :: d in acc ==> acc[d] != []
    ensures flat != [] ==> Fecha(flat[|flat| - 1]) in acc
  {
    if flat == [] then map[]
    else
      var n := |flat| - 1;
      var acc := ByDate(flat[..n]);
      var d := Fecha(flat[n]);
      acc[d := (if d in acc then acc[d] else []) + [flat[n]]]
  }

  lemma ByDateSnoc(flat: seq<Placed>, p: Placed)
    ensures var acc := ByDate(flat);
            ByDate(flat + [p]) == acc[Fecha(p) := (if Fecha(p) in acc then acc[Fecha(p)] else []) + [p]]
  {
    assert (flat + [p])[..|flat|] == flat;
  }

  /** The pushes group the activities: the keys are the dates seen, in
      insertion order, and each list holds the activities on its date. */
  lemma {:induction false} ByDateGroups(flat: seq<Placed>)
    ensures Grouped(ByDate(flat), Dates(flat), flat)
  {
    if flat != [] {
      var n := |flat| - 1;
      var p := flat[n];
      assert flat == flat[..n] + [p];
      ByDateGroups(flat[..n]);
      ByDateSnoc(flat[..n], p);
      DatesSnoc(flat[..n], p);
      OnDateNonEmpty(flat[..n], Fecha(p));
      var acc := ByDate(flat);
      forall d | d in acc ensures acc[d] == OnDate(flat, d) {
        OnDateSnoc(flat[..n], p, d);
      }
    }
  }

  /** `acc` and `fechas` are what the pushes build from the activities `flat`. */
  ghost predicate Built(acc: map<string, seq<Placed>>, fechas: seq<string>, flat: seq<Placed>)
  {
    acc == ByDate(flat) && fechas == Dates(flat)
  }

  /** One more push: the date is a key exactly when it was seen before, and
      the dictionary and the date list grow as one push makes them. */
  lemma PushStep(flat: seq<Placed>, p: Placed)
    ensures var acc := ByDate(flat);
            var d := Fecha(p);
            && (d in acc <==> d in Dates(flat))
            && ByDate(flat + [p]) == acc[d := (if d in acc then acc[d] else []) + [p]]
            && Dates(flat + [p]) == if d in Dates(flat) then Dates(flat) else Dates(flat) + [d]
  {
    ByDateGroups(flat);
    ByDateSnoc(flat, p);
    DatesSnoc(flat, p);
  }

  /** One activity: create its date's list when missing, then push. */
  method PushOne(acc: map<string, seq<Placed>>, fechas: seq<string>, ghost flat: seq<Placed>, p: Placed)
    returns (acc': map<string, seq<Placed>>, fechas': seq<string>)
    requires Built(acc, fechas, flat)
    ensures Built(acc', fechas', flat + [p])
  {
    var fechaSolo := DatePrefix(p.actividad.fechaInicio);
    PushStep(flat, p);
    acc', fechas' := acc, fechas;
    if fechaSolo !in acc' {
      acc' := acc'[fechaSolo := []];
      fechas' := fechas' + [fechaSolo];
    }
    acc' := acc'[fechaSolo := acc'[fechaSolo] + [p]];
  }

  lemma EnrichedStep(flat: seq<Placed>, c: Course, i: int)
    requires 0 <= i < |c.actividades|
    ensures flat + Enriched(c.actividades[..i + 1], c)
            == (flat + Enriched(c.actividades[..i], c))
               + [Placed(c.actividades[i], c.nombreAsignatura, c.nombreProfesor, c.capacidad)]
  {
    assert Enriched(c.actividades[..i + 1], c)
           == Enriched(c.actividades[..i], c) + [Placed(c.actividades[i], c.nombreAsignatura, c.nombreProfesor, c.capacidad)];
  }

  /** `curso.actividades.forEach(...)`: push each enriched activity. */
  method PushCourse(acc: map<string, seq<Placed>>, fechas: seq<string>, ghost flat: seq<Placed>, c: Course)
    returns (acc': map<string, seq<Placed>>, fechas': seq<string>)
    requires Built(acc, fechas, flat)
    ensures Built(acc', fechas', flat + Enriched(c.actividades, c))
  {
    acc', fechas' := acc, fechas;
    assert flat + Enriched(c.actividades[..0], c) == flat;
    var i := 0;
    while i < |c.actividades|
      invariant 0 <= i <= |c.actividades|
      invariant Built(acc', fechas', flat + Enriched(c.actividades[..i], c))
    {
      var p := Placed(c.actividades[i], c.nombreAsignatura, c.nombreProfesor, c.capacidad);
      EnrichedStep(flat, c, i);
      acc', fechas' := PushOne(acc', fechas', flat + Enriched(c.actividades[..i], c), p);
      i := i + 1;
    }
    assert c.actividades[..i] == c.actividades;
  }

  lemma CoursesStep(flat: seq<Placed>, cs: seq<Course>, k: int)
    requires 0 <= k < |cs|
    ensures flat + CoursesPlaced(cs[..k + 1]) == (flat + CoursesPlaced(cs[..k])) + Enriched(cs[k].actividades, cs[k])
  {
    assert cs[..k + 1][..k] == cs[..k];
  }

  /** `cursos.forEach(...)`. */
  method PushCourses(acc: map<string, seq<Placed>>, fechas: seq<string>, ghost flat: seq<Placed>, cs: seq<Course>)
    returns (acc': map<string, seq<Placed>>, fechas': seq<string>)
    requires Built(acc, fechas, flat)
    ensures Built(acc', fechas', flat + CoursesPlaced(cs))
  {
    acc', fechas' := acc, fechas;
    assert flat + CoursesPlaced(cs[..0]) == flat;
    var k := 0;
    while k < |cs|
      invariant 0 <= k <= |cs|
      invariant Built(acc', fechas', flat + CoursesPlaced(cs[..k]))
    {
      CoursesStep(flat, cs, k);
      acc', fechas' := PushCourse(acc', fechas', flat + CoursesPlaced(cs[..k]), cs[k]);
      k := k + 1;
    }
    assert cs[..k] == cs;
  }

  lemma LevelsStep(flat: seq<Placed>, ls: seq<Level>, j: int)
    requires 0 <= j < |ls|
    ensures ls[j].value.Courses? ==>
              flat + LevelsPlaced(ls[..j + 1]) == (flat + LevelsPlaced(ls[..j])) + CoursesPlaced(ls[j].value.cursos)
    ensures !ls[j].value.Courses? ==> flat + LevelsPlaced(ls[..j + 1]) == flat + LevelsPlaced(ls[..j])
  {
    assert ls[..j + 1][..j] == ls[..j];
    if !ls[j].value.Courses? {
      assert LevelsPlaced(ls[..j]) + [] == LevelsPlaced(ls[..j]);
    }
  }

  /** `Object.keys(programa).forEach(...)`: the levels of one program;
      a level that is not an array is skipped. */
  method PushLevels(acc: map<string, seq<Placed>>, fechas: seq<string>, ghost flat: seq<Placed>, niveles: seq<Level>)
    returns (acc': map<string, seq<Placed>>, fechas': seq<string>)
    requires Built(acc, fechas, flat)
    ensures Built(acc', fechas', flat + LevelsPlaced(niveles))
  {
    acc', fechas' := acc, fechas;
    assert flat + LevelsPlaced(niveles[..0]) == flat;
    var j := 0;
    while j < |niveles|
      invariant 0 <= j <= |niveles|
      invariant Built(acc', fechas', flat + LevelsPlaced(niveles[..j]))
    {
      LevelsStep(flat, niveles, j);
      if niveles[j].value.Courses? {
        acc', fechas' := PushCourses(acc', fechas', flat + LevelsPlaced(niveles[..j]), niveles[j].value.cursos);
      }
      j := j + 1;
    }
    assert niveles[..j] == niveles;
  }

  lemma SchedulePlacedSnoc(s: Schedule, i: int)
    requires 0 <= i < |s|
    ensures SchedulePlaced(s[..i + 1]) == SchedulePlaced(s[..i]) + LevelsPlaced(s[i].niveles)
  {
    assert s[..i + 1][..i] == s[..i];
  }

  /** `organizarPorFecha(datos)` on the schedule object: the dictionary from
      date to activities, and its keys in insertion order. */
  method OrganizarPorFecha(s: Schedule) returns (porFecha: map<string, seq<Placed>>, fechas: seq<string>)
    ensures Built(porFecha, fechas, SchedulePlaced(s))
    ensures Grouped(porFecha, fechas, SchedulePlaced(s))
    ensures Distinct(fechas)
    ensures forall d :: d in porFecha ==> porFecha[d] != []
  {
    porFecha, fechas := map[], [];
    var i := 0;
    while i < |s|
      invariant 0 <= i <= |s|
      invariant Built(porFecha, fechas, SchedulePlaced(s[..i]))
    {
      SchedulePlacedSnoc(s, i);
      porFecha, fechas := PushLevels(porFecha, fechas, SchedulePlaced(s[..i]), s[i].niveles);
      i := i + 1;
    }
    assert s[..i] == s;
    ByDateGroups(SchedulePlaced(s));
    forall d | d in porFecha ensures porFecha[d] != [] {
      OnDateNonEmpty(SchedulePlaced(s), d);
    }
  }

  /** Each activity of the schedule is placed once for every time it occurs,
      under its own date and no other. */
  lemma PlacedOnce(s: Schedule, p: Placed, d: string)
    ensures multiset(OnDate(SchedulePlaced(s), d))[p]
            == if Fecha(p) == d then multiset(SchedulePlaced(s))[p] else 0
  {
    OnDateCount(SchedulePlaced(s), d, p);
  }

  /** The placed activities are the schedule's activities, in the same order;
      each carries the fields of the course it came from. */
  lemma {:induction false} PlacedAreActivities(s: Schedule)
    ensures |SchedulePlaced(s)| == |ScheduleActivities(s)|
    ensures forall i :: 0 <= i < |SchedulePlaced(s)| ==> SchedulePlaced(s)[i].actividad == ScheduleActivities(s)[i]
  {
    if s != [] {
      var n := |s| - 1;
      PlacedAreActivities(s[..n]);
      LevelsPlacedAreActivities(s[n].niveles);
    }
  }

  lemma {:induction false} LevelsPlacedAreActivities(ls: seq<Level>)
    ensures |LevelsPlaced(ls)| == |LevelActivities(ls)|
    ensures forall i :: 0 <= i < |LevelsPlaced(ls)| ==> LevelsPlaced(ls)[i].actividad == LevelActivities(ls)[i]
  {
    if ls != [] {
      var n := |ls| - 1;
      LevelsPlacedAreActivities(ls[..n]);
      if ls[n].value.Courses? {
        CoursesPlacedAreActivities(ls[n].value.cursos);
      }
    }
  }

  lemma {:induction false} CoursesPlacedAreActivities(cs: seq<Course>)
    ensures |CoursesPlaced(cs)| == |CourseActivities(cs)|
    ensures forall i :: 0 <= i < |CoursesPlaced(cs)| ==> CoursesPlaced(cs)[i].actividad == CourseActivities(cs)[i]
  {
    if cs != [] {
      CoursesPlacedAreActivities(cs[..|cs| - 1]);
    }
  }

  // ---------------------------------------------------------------------------
  // crearTablaCalendario: the rows of the calendar

  datatype Row = Row(fecha: string, actividades: seq<Placed>)

  datatype Calendar = NoData | Table(rows: seq<Row>)

  function RowDates(rows: seq<Row>): seq<string>
  {
    seq(|rows|, i requires 0 <= i < |rows| => rows[i].fecha)
  }

  /** The sorted keys of a grouping: ascending, each date with activities
      once, and none when there are no activities. */
  lemma SortedDates(porFecha: map<string, seq<Placed>>, fechas: seq<string>, flat: seq<Placed>)
    requires Grouped(porFecha, fechas, flat)
    ensures var sorted := SortStrings(fechas);
            && StrictlyAscending(sorted)
            && (|sorted| == 0 <==> flat == [])
            && (forall d :: d in sorted <==> OnDate(flat, d) != [])
            && (forall d :: d in sorted ==> d in porFecha && porFecha[d] == OnDate(flat, d))
  {
    var sorted := SortStrings(fechas);
    SortDistinct(fechas);
    DatesEmpty(flat);
    assert |sorted| == |multiset(sorted)| == |multiset(fechas)| == |fechas|;
    forall d ensures d in sorted <==> OnDate(flat, d) != [] {
      OnDateNonEmpty(flat, d);
    }
  }

  /** The instant `new Date(fecha_inicio)` denotes, as `startOf` gives it. */
  function Start(p: Placed, startOf: string -> int): int
  {
    startOf(p.actividad.fechaInicio)
  }

  /** A list of placed activities is in order of start instant. */
  predicate StartSorted(ps: seq<Placed>, startOf: string -> int)
  {
    forall i, j :: 0 <= i < j < |ps| ==> Start(ps[i], startOf) <= Start(ps[j], startOf)
  }

  /** Inserts `p` before the first activity that does not start earlier. */
  function InsertByStart(p: Placed, ps: seq<Placed>, startOf: string -> int): (r: seq<Placed>)
    ensures multiset(r) == multiset(ps) + multiset{p}
    ensures StartSorted(ps, startOf) ==> StartSorted(r, startOf)
  {
    if ps == [] then [p]
    else if Start(p, startOf) <= Start(ps[0], startOf) then
      SortedCons(p, ps, startOf);
      [p] + ps
    else
      var rest := InsertByStart(p, ps[1..], startOf);
      assert ps == [ps[0]] + ps[1..];
      if StartSorted(ps, startOf) then
        SortedAfterHead(p, ps, rest, startOf);
        [ps[0]] + rest
      else
        [ps[0]] + rest
  }

  lemma SortedCons(p: Placed, ps: seq<Placed>, startOf: string -> int)
    requires ps != [] && Start(p, startOf) <= Start(ps[0], startOf)
    ensures StartSorted(ps, startOf) ==> StartSorted([p] + ps, startOf)
  {
    if StartSorted(ps, startOf) {
      forall j | 0 <= j < |ps| ensures Start(p, startOf) <= Start(ps[j], startOf) {
        if j > 0 {
          assert Start(ps[0], startOf) <= Start(ps[j], startOf);
        }
      }
    }
  }

  lemma SortedAfterHead(p: Placed, ps: seq<Placed>, rest: seq<Placed>, startOf: string -> int)
    requires ps != [] && StartSorted(ps, startOf) && Start(ps[0], startOf) < Start(p, startOf)
    requires multiset(rest) == multiset(ps[1..]) + multiset{p}
    requires StartSorted(ps[1..], startOf) ==> StartSorted(rest, startOf)
    ensures StartSorted([ps[0]] + rest, startOf)
  {
    assert StartSorted(ps[1..], startOf);
    forall j | 0 <= j < |rest| ensures Start(ps[0], startOf) <= Start(rest[j], startOf) {
      StartAfterHead(p, ps, rest, j, startOf);
    }
  }

  lemma StartAfterHead(p: Placed, ps: seq<Placed>, rest: seq<Placed>, j: int, startOf: string -> int)
    requires ps != [] && StartSorted(ps, startOf) && Start(ps[0], startOf) < Start(p, startOf)
    requires multiset(rest) == multiset(ps[1..]) + multiset{p}
    requires 0 <= j < |rest|
    ensures Start(ps[0], startOf) <= Start(rest[j], startOf)
  {
    var y := rest[j];
    assert y in multiset(rest);
    if y != p {
      assert y in multiset(ps[1..]);
      var k :| 0 <= k < |ps[1..]| && ps[1..][k] == y;
      assert ps[k + 1] == y;
    }
  }

  /** `actividades.sort((a, b) => new Date(a.fecha_inicio) - new Date(b.fecha_inicio))`. */
  function SortByStart(ps: seq<Placed>, startOf: string -> int): (r: seq<Placed>)
    ensures StartSorted(r, startOf) && multiset(r) == multiset(ps)
  {
    if ps == [] then []
    else
      assert ps == [ps[0]] + ps[1..];
      InsertByStart(ps[0], SortByStart(ps[1..], startOf), startOf)
  }

  /** The activities shown in one row: public/script.js sorts them by start
      (`startOf` is Some), script.js keeps grouping order (None). */
  function RowActivities(ps: seq<Placed>, startOf: Option<string -> int>): (r: seq<Placed>)
    ensures multiset(r) == multiset(ps)
    ensures startOf.Some? ==> StartSorted(r, startOf.value)
    ensures startOf.None? ==> r == ps
  {
    if startOf.Some? then SortByStart(ps, startOf.value) else ps
  }

  lemma RowDatesOf(rows: seq<Row>, fechas: seq<string>)
    requires |rows| == |fechas| && forall i :: 0 <= i < |rows| ==> rows[i].fecha == fechas[i]
    ensures RowDates(rows) == fechas
  {
  }

  /** A row shows the activities on its date: exactly those, as often as they
      occur, sorted by start when `startOf` is given and in grouping order
      otherwise. */
  ghost predicate RowShows(r: Row, flat: seq<Placed>, startOf: Option<string -> int>)
  {
    && multiset(r.actividades) == multiset(OnDate(flat, r.fecha))
    && (startOf.None? ==> r.actividades == OnDate(flat, r.fecha))
    && (startOf.Some? ==> StartSorted(r.actividades, startOf.value))
  }

  lemma RowHolds(flat: seq<Placed>, fecha: string, startOf: Option<string -> int>)
    ensures RowShows(Row(fecha, RowActivities(OnDate(flat, fecha), startOf)), flat, startOf)
  {
  }

  /** `fechasOrdenadas.forEach(...)`: one row per date, in the given order,
      each holding that date's list from the dictionary, grouped from the
      activities `flat`. */
  method BuildRows(porFecha: map<string, seq<Placed>>, fechas: seq<string>, ghost flat: seq<Placed>,
                   startOf: Option<string -> int>)
    returns (rows: seq<Row>)
    requires forall i :: 0 <= i < |fechas| ==> fechas[i] in porFecha && porFecha[fechas[i]] == OnDate(flat, fechas[i])
    ensures |rows| == |fechas|
    ensures forall i :: 0 <= i < |rows| ==> rows[i].fecha == fechas[i] && RowShows(rows[i], flat, startOf)
  {
    rows := [];
    var k := 0;
    while k < |fechas|
      invariant 0 <= k <= |fechas|
      invariant |rows| == k
      invariant forall i :: 0 <= i < k ==> rows[i].fecha == fechas[i] && RowShows(rows[i], flat, startOf)
    {
      var fecha := fechas[k];
      var actividades := RowActivities(porFecha[fecha], startOf);
      RowHolds(flat, fecha, startOf);
      rows := rows + [Row(fecha, actividades)];
      k := k + 1;
    }
  }

  /** `crearTablaCalendario(datos)`: the dates in ascending order, each date
      with activities once, each row holding exactly that date's activities
      (in start order when `startOf` is given, in grouping order otherwise);
      the no-data message when nothing is left. */
  method CrearTablaCalendario(s: Schedule, startOf: Option<string -> int>) returns (cal: Calendar)
    ensures cal.NoData? <==> SchedulePlaced(s) == []
    ensures cal.Table? ==> StrictlyAscending(RowDates(cal.rows))
    ensures cal.Table? ==> forall d :: d in RowDates(cal.rows) <==> OnDate(SchedulePlaced(s), d) != []
    ensures cal.Table? ==> forall i :: 0 <= i < |cal.rows| ==> RowShows(cal.rows[i], SchedulePlaced(s), startOf)
  {
    var porFecha, fechas := OrganizarPorFecha(s);
    ghost var flat := SchedulePlaced(s);
    var fechasOrdenadas := SortStrings(fechas);
    SortedDates(porFecha, fechas, flat);
    if |fechasOrdenadas| == 0 {
      return NoData;
    }
    assert forall i :: 0 <= i < |fechasOrdenadas| ==> fechasOrdenadas[i] in fechasOrdenadas;
    var rows := BuildRows(porFecha, fechasOrdenadas, flat, startOf);
    RowDatesOf(rows, fechasOrdenadas);
    cal := Table(rows);
  }

  // ---------------------------------------------------------------------------
  // The group lists

  /** Filling a `Set` from `datos[2]`: each group once. */
  method DistinctGroups(grupos: seq<string>) returns (unicos: seq<string>)
    ensures Distinct(unicos)
    ensures forall g :: g in unicos <==> g in grupos
  {
    unicos := [];
    var vistos: set<string> := {};
    var i := 0;
    while i < |grupos|
      invariant 0 <= i <= |grupos|
      invariant Distinct(unicos)
      invariant forall g :: g in unicos <==> g in vistos
      invariant forall g :: g in vistos <==> g in grupos[..i]
    {
      var g := grupos[i];
      assert grupos[..i + 1] == grupos[..i] + [g];
      if g !in vistos {
        unicos := unicos + [g];
        vistos := vistos + {g};
      }
      i := i + 1;
    }
    assert grupos[..i] == grupos;
  }

  const DefaultGroups: seq<string> := ["EN1", "DN1"]

  /** The `gruposUnicos.forEach(...)` loop of `crearMultiSelectGrupos`: the
      groups checked by default, in the order of the list. */
  method MarkDefaults(opciones: seq<string>) returns (marcados: seq<string>)
    requires StrictlyAscending(opciones)
    ensures forall g :: g in marcados <==> g in opciones && g in DefaultGroups
    ensures StrictlyAscending(marcados)
  {
    marcados := [];
    var i := 0;
    ghost var idx: seq<nat> := [];
    while i < |opciones|
      invariant 0 <= i <= |opciones|
      invariant forall g :: g in marcados <==> g in opciones[..i] && g in DefaultGroups
      invariant |idx| == |marcados|
      invariant forall k :: 0 <= k < |idx| ==> idx[k] < i && opciones[idx[k]] == marcados[k]
      invariant forall k, m :: 0 <= k < m < |idx| ==> idx[k] < idx[m]
    {
      var g := opciones[i];
      assert opciones[..i + 1] == opciones[..i] + [g];
      if g in DefaultGroups {
        marcados := marcados + [g];
        idx := idx + [i];
      }
      i := i + 1;
    }
    assert opciones[..i] == opciones;
  }

  /** `crearMultiSelectGrupos`: the checkboxes in ascending order without
      repeats, and the default groups that are present, checked in that order. */
  method GroupCheckboxes(grupos: seq<string>) returns (opciones: seq<string>, marcados: seq<string>)
    ensures StrictlyAscending(opciones)
    ensures forall g :: g in opciones <==> g in grupos
    ensures forall g :: g in marcados <==> g in grupos && g in DefaultGroups
    ensures StrictlyAscending(marcados)
  {
    var unicos := DistinctGroups(grupos);
    opciones := SortStrings(unicos);
    SortDistinct(unicos);
    marcados := MarkDefaults(opciones);
  }

  /** `crearSelectGrupos` (script.js): "Todos los grupos" (value "") first,
      then the groups in ascending order without repeats; EN1 is selected when
      present, otherwise the select shows its first option. */
  method GroupOptions(grupos: seq<string>) returns (opciones: seq<string>, seleccionado: string)
    ensures |opciones| >= 1 && opciones[0] == ""
    ensures StrictlyAscending(opciones[1..])
    ensures forall g :: g in opciones[1..] <==> g in grupos
    ensures seleccionado == if "EN1" in grupos then "EN1" else ""
  {
    var unicos := DistinctGroups(grupos);
    var ordenados := SortStrings(unicos);
    SortDistinct(unicos);
    opciones := [""] + ordenados;
    seleccionado := "";
    var i := 0;
    while i < |ordenados|
      invariant 0 <= i <= |ordenados|
      invariant seleccionado == if "EN1" in ordenados[..i] then "EN1" else ""
    {
      assert ordenados[..i + 1] == ordenados[..i] + [ordenados[i]];
      if ordenados[i] == "EN1" {
        seleccionado := "EN1";
      }
      i := i + 1;
    }
    assert ordenados[..i] == ordenados;
    assert opciones[1..] == ordenados;
  }

  // ---------------------------------------------------------------------------
  // getColorForGroup

  const Palette: seq<string> := [
    "#1E90FF", "#FF6347", "#32CD32", "#FF69B4", "#FFA500",
    "#8A2BE2", "#00CED1", "#FF4500", "#2E8B57", "#FF1493",
    "#6495ED", "#FFD700", "#DC143C", "#20B2AA", "#9370DB"
  ]

  /** The page-global `coloresGrupos`. */
  class GroupColors {
    var colores: map<string, string>

    ghost predicate Valid()
      reads this
    {
      forall g :: g in colores ==> colores[g] in Palette
    }

    constructor ()
      ensures Valid() && colores == map[]
    {
      colores := map[];
    }

    /** A group keeps the colour it first got; a new group gets the palette
        entry at (groups coloured so far) mod 15. */
    method GetColorForGroup(grupo: string) returns (color: string)
      requires Valid()
      modifies this
      ensures Valid() && color in Palette
      ensures grupo in old(colores) ==> color == old(colores)[grupo] && colores == old(colores)
      ensures grupo !in old(colores) ==>
                && color == Palette[|old(colores)| % |Palette|]
                && colores == old(colores)[grupo := color]
                && |colores| == |old(colores)| + 1
    {
      if grupo in colores {
        return colores[grupo];
      }
      var index := |colores| % |Palette|;
      color := Palette[index];
      colores := colores[grupo := color];
    }
  }
}
