/**
 * The upload form (src/app/upload/page.tsx): the audio URL's validation
 * status, the simulated progress counter driven by a timer, and the submit
 * handler's gating and outcomes.
 */
module Upload {

  /** The URL validation status. */
  datatype Status = Idle | Validating | Ready

  /** The duration an audio element reports once its metadata has loaded. */
  datatype AudioDuration = Finite(seconds: nat) | Infinite | NaN

  /** The text fields of the form. */
  datatype FormData = FormData(name: string, artist: string, coverUrl: string, fileUrl: string, mood: string)

  /** The form as it starts and as a successful upload leaves it. */
  function EmptyForm(): (f: FormData)
    ensures f.name == "" && f.artist == "" && f.coverUrl == "" && f.fileUrl == "" && f.mood == "Chill"
  {
    FormData("", "", "", "", "Chill")
  }

  /** The progress updater: 90 and stop once at 90 or more, otherwise ten more. */
  function ProgressTick(prev: int): (next: int)
    ensures prev >= 90 ==> next == 90
    ensures prev < 90 ==> next == prev + 10
  {
    if prev >= 90 then 90 else prev + 10
  }

  /** The progress after `n` timer firings from `start`. */
  function Ticks(start: int, n: nat): int
    decreases n
  {
    if n == 0 then start else Ticks(ProgressTick(start), n - 1)
  }

  function Min(a: int, b: int): int {
    if a <= b then a else b
  }

  /** From a multiple of ten up to 90, the counter climbs by ten per firing and settles at 90. */
  lemma {:induction false} TicksClimbToNinety(start: int, n: nat)
    requires start <= 90 && start % 10 == 0
    ensures Ticks(start, n) == Min(90, start + 10 * n)
    ensures Ticks(start, n) <= 90
    decreases n
  {
    if n > 0 {
      TicksClimbToNinety(ProgressTick(start), n - 1);
    }
  }

  /** The page's state; `timerRunning` is whether the progress interval is still set. */
  class UploadForm {
    var loading: bool
    var duration: nat
    var progress: int
    var status: Status
    var formData: FormData
    var timerRunning: bool

    /** While the timer runs the counter sits on a multiple of ten between 10 and 90. */
    predicate Valid()
      reads this
    {
      timerRunning ==> 10 <= progress <= 90 && progress % 10 == 0
    }

    /** An empty form, idle, no progress, not loading. */
    constructor ()
      ensures Valid()
      ensures !loading && duration == 0 && progress == 0 && status == Idle
      ensures formData == EmptyForm() && !timerRunning
    {
      loading, duration, progress, status := false, 0, 0, Idle;
      formData := EmptyForm();
      timerRunning := false;
    }

    /** The submit button is enabled only when not loading and the URL is ready. */
    function SubmitEnabled(): (enabled: bool)
      reads this
      ensures enabled <==> !loading && status == Ready
    {
      !(loading || status != Ready)
    }

    /** handleFileUrlChange: store the URL; an empty one makes the form idle, any other starts validation. */
    method HandleFileUrlChange(url: string)
      modifies this
      ensures formData == old(formData).(fileUrl := url)
      ensures url == "" ==> status == Idle
      ensures url != "" ==> status == Validating
      ensures loading == old(loading) && duration == old(duration) && progress == old(progress)
      ensures timerRunning == old(timerRunning)
    {
      formData := formData.(fileUrl := url);
      if url == "" {
        status := Idle;
        return;
      }
      status := Validating;
    }

    /** onloadedmetadata: an infinite or NaN duration makes the form idle; otherwise it is stored and the form is ready. */
    method OnLoadedMetadata(audio: AudioDuration)
      modifies this
      ensures audio.Finite? ==> status == Ready && duration == audio.seconds
      ensures !audio.Finite? ==> status == Idle && duration == old(duration)
      ensures formData == old(formData) && loading == old(loading) && progress == old(progress)
      ensures timerRunning == old(timerRunning)
    {
      if audio == Infinite || audio == NaN {
        status := Idle;
      } else {
        duration := audio.seconds;
        status := Ready;
      }
    }

    /** onerror: the audio could not be loaded, so the form goes back to idle. */
    method OnAudioError()
      modifies this
      ensures status == Idle
      ensures formData == old(formData) && loading == old(loading) && progress == old(progress)
      ensures duration == old(duration) && timerRunning == old(timerRunning)
    {
      status := Idle;
    }

    /** One firing of the progress interval: the updater runs, and the interval is cleared at 90. */
    method TimerTick()
      requires Valid() && timerRunning
      modifies this
      ensures Valid()
      ensures progress == ProgressTick(old(progress))
      ensures timerRunning <==> old(progress) < 90
      ensures loading == old(loading) && status == old(status) && formData == old(formData)
      ensures duration == old(duration)
    {
      if progress >= 90 {
        timerRunning := false;
        progress := 90;
      } else {
        progress := progress + 10;
      }
    }

    /** `n` firings of the interval; once it is cleared later firings do nothing. */
    method RunTimer(n: nat)
      requires Valid() && timerRunning
      modifies this
      ensures Valid()
      ensures progress == Ticks(old(progress), n) && progress <= 90
      ensures timerRunning <==> old(progress) + 10 * n <= 90
      ensures loading == old(loading) && status == old(status) && formData == old(formData)
      ensures duration == old(duration)
    {
      var i := 0;
      ghost var start := progress;
      TicksClimbToNinety(start, 0);
      while i < n
        invariant 0 <= i <= n
        invariant Valid()
        invariant progress == Ticks(start, i) && progress <= 90
        invariant !timerRunning ==> progress == 90
        invariant timerRunning <==> start + 10 * i <= 90
        invariant loading == old(loading) && status == old(status) && formData == old(formData)
        invariant duration == old(duration)
      {
        TicksClimbToNinety(start, i + 1);
        TicksClimbToNinety(start, i);
        if timerRunning {
          TimerTick();
        }
        i := i + 1;
      }
    }

    /**
     * handleSubmit, up to the request: refused unless the URL is ready;
     * otherwise loading starts and the progress timer starts at 10.
     */
    method HandleSubmit() returns (sent: bool)
      requires Valid()
      modifies this
      ensures Valid()
      ensures sent <==> old(status) == Ready
      ensures !sent ==> loading == old(loading) && progress == old(progress) && timerRunning == old(timerRunning)
      ensures sent ==> loading && progress == 10 && timerRunning
      ensures status == old(status) && formData == old(formData) && duration == old(duration)
    {
      if status != Ready {
        return false;
      }
      loading := true;
      progress := 10;
      timerRunning := true;
      return true;
    }

    /** The response was ok: the timer is cleared and progress shows 100. */
    method OnUploadSucceeded()
      modifies this
      ensures Valid()
      ensures progress == 100 && !timerRunning
      ensures loading == old(loading) && status == old(status) && formData == old(formData)
      ensures duration == old(duration)
    {
      timerRunning := false;
      progress := 100;
    }

    /**
     * A second after success (the interval is already cleared): the form is
     * emptied, idle, with no duration, no progress and not loading.
     */
    method ResetAfterSuccess()
      requires !timerRunning
      modifies this
      ensures Valid()
      ensures formData == EmptyForm() && status == Idle && duration == 0 && progress == 0 && !loading
      ensures !timerRunning
    {
      formData := EmptyForm();
      status := Idle;
      duration := 0;
      progress := 0;
      loading := false;
    }

    /** The request failed or the response was not ok: the timer is cleared, progress drops to 0, loading ends. */
    method OnUploadFailed()
      modifies this
      ensures Valid()
      ensures progress == 0 && !loading && !timerRunning
      ensures status == old(status) && formData == old(formData) && duration == old(duration)
    {
      timerRunning := false;
      progress := 0;
      loading := false;
    }
  }

  /** A submission while the URL is not ready sends nothing and changes nothing. */
  method SubmitWhenNotReady(form: UploadForm)
    requires form.Valid() && form.status != Ready
    modifies form
    ensures form.loading == old(form.loading) && form.progress == old(form.progress)
    ensures form.timerRunning == old(form.timerRunning) && form.status == old(form.status)
  {
    var sent := form.HandleSubmit();
    assert !sent;
  }

  /** A whole successful upload: submit, any number of timer firings, success, reset. */
  method UploadSucceeds(form: UploadForm, firings: nat)
    requires form.Valid() && form.status == Ready
    modifies form
    ensures form.formData == EmptyForm() && form.status == Idle
    ensures form.duration == 0 && form.progress == 0 && !form.loading && !form.timerRunning
  {
    var sent := form.HandleSubmit();
    form.RunTimer(firings);
    form.OnUploadSucceeded();
    form.ResetAfterSuccess();
  }
}
