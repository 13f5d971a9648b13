/// What the two LabJack MIDAS frontends share: the outcome of a call into
/// the frontend, the `ErrorCheck` convention of LJM_Utilities.h, and the
/// `poll_event` routine neither of them uses for real triggering.
module LjmFrontend {

  /// What a call into the frontend tells MIDAS: carry on, or the program is ended by `ErrorCheck`.
  datatype Status = Continue | Abort(code: int)

  /// `ErrorCheck(err, ...)`: a non-zero LJM code ends the program.
  function ErrorCheck(err: int): (s: Status)
    ensures s == Continue <==> err == 0
    ensures s.Abort? ==> s.code == err
  {
    if err == 0 then Continue else Abort(err)
  }

  /// `poll_event`: the LAM test is commented out, so the loop reports an
  /// event on its first pass unless `test` is set.
  method PollEvent(count: int, test: bool) returns (r: int)
    ensures r == 1 <==> count > 0 && !test
    ensures r == 0 || r == 1
  {
    var i := 0;
    while i < count
      invariant test || i <= 0
    {
      if !test {
        return 1;
      }
      i := i + 1;
    }
    return 0;
  }
}
