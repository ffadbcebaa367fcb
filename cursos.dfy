/** app/main.py: the course listing `cursos[skip : skip + limit]`. */
module Cursos {
  import opened Common
  import opened Seqs

  datatype Curso = Curso(curso: string)

  const CURSOS: seq<Curso> := [Curso("fundamentos programacion"), Curso("programacion basica"),
                               Curso("Desarrollo de software"), Curso("Desarrollo de app webs")]

  const SKIP_POR_DEFECTO: int := 0
  const LIMIT_POR_DEFECTO: int := 10

  /** `read_item`. */
  function LeerCursos(skip: int, limit: int): seq<Curso>
  {
    PySlice(CURSOS, skip, skip + limit)
  }

  /** Any Python slice is a contiguous run of the list, in its order, from
      the normalised start bound. */
  lemma PySliceContiguo<T>(s: seq<T>, a: int, b: int)
    ensures var r := PySlice(s, a, b);
            var x := SliceBound(a, |s|);
            x + |r| <= |s| && forall i :: 0 <= i < |r| ==> r[i] == s[x + i]
  {
  }

  /** The listing is a contiguous, ordered run of the courses; for a
      non-negative skip and limit it starts at position skip and holds
      min(limit, courses left) of them; the defaults list all four. */
  lemma LeerCursosCorrecto(skip: int, limit: int)
    ensures var r := LeerCursos(skip, limit);
            var x := SliceBound(skip, |CURSOS|);
            x + |r| <= |CURSOS| && forall i :: 0 <= i < |r| ==> r[i] == CURSOS[x + i]
    ensures skip >= 0 && limit >= 0 ==>
              var r := LeerCursos(skip, limit);
              |r| == (if skip >= |CURSOS| then 0 else Min(limit, |CURSOS| - skip))
              && forall i :: 0 <= i < |r| ==> r[i] == CURSOS[skip + i]
    ensures skip >= |CURSOS| ==> LeerCursos(skip, limit) == []
    ensures LeerCursos(SKIP_POR_DEFECTO, LIMIT_POR_DEFECTO) == CURSOS
  {
    PySliceContiguo(CURSOS, skip, skip + limit);
  }
}
