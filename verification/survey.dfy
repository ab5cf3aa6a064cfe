/**
 * The feedback-survey banner of src/utils/survey.ts: when the banner is due
 * (three persisted keys against the current time), what each answer to it
 * writes back, and the `ExtensionSurvey` fields its constructor and
 * `showSurvey` set. Time (`Date.now()`) and the random sample are
 * parameters; the two timers are flags saying whether one is pending.
 */
module Survey {
  import opened Common

  /** 12 weeks, in milliseconds. */
  const TimeToDisableSurvey: int := 1000 * 60 * 60 * 24 * 7 * 12
  /** 2 weeks, in milliseconds. */
  const TimeToRemindMeLater: int := 1000 * 60 * 60 * 24 * 7 * 2
  /** 15 minutes, in milliseconds. */
  const TimeToShowSurvey: int := 1000 * 60 * 15
  /** The share of users that are asked, in percent. */
  const SamplePercentage: int := 25

  /**
   * The persisted keys `survey/doNotShowAgain`, `survey/remindMeLater` and
   * `survey/disableSurveyForTime`; an absent key reads as false, 0 and 0.
   */
  datatype SurveyStore = SurveyStore(doNotShowAgain: bool, remindMeLater: int, disableSurveyForTime: int)

  const EmptyStore := SurveyStore(false, 0, 0)

  /** The buttons of the survey notification. */
  datatype SurveyOption = Take | Remind | Never

  /** The banner is due when it was not turned off, no reminder is pending, and it is not disabled (a negative time disables it for good). */
  predicate BannerDue(store: SurveyStore, now: int) {
    && !store.doNotShowAgain
    && store.remindMeLater <= now
    && 0 <= store.disableSurveyForTime <= now
  }

  /** A fresh installation is asked as soon as the time is not negative. */
  lemma FreshStoreIsDue(now: int)
    ensures BannerDue(EmptyStore, now) <==> now >= 0
  {
  }

  /** `x ? x : fallback` for an optional number: a missing value or 0 takes the fallback. */
  function OrDefault(x: Option<int>, fallback: int): (r: int)
    ensures x.Some? && x.value != 0 ==> r == x.value
    ensures x.None? || x.value == 0 ==> r == fallback
  {
    if x.Some? && x.value != 0 then x.value else fallback
  }

  /** The value `openSurveyLink` stores: a negative duration as it is (never again), else the instant it runs out. */
  function DisableUntil(timeToDisable: int, now: int): (t: int)
    ensures timeToDisable < 0 ==> t < 0
    ensures timeToDisable >= 0 ==> t == now + timeToDisable
  {
    if timeToDisable < 0 then timeToDisable else now + timeToDisable
  }

  /** What an answer (`None` when the notification is dismissed) writes to the store at time `now`. */
  function AnswerEffect(store: SurveyStore, answer: Option<SurveyOption>, now: int,
                        timeToDisable: int, timeToRemind: int): SurveyStore
  {
    match answer
    case Some(Take) => store.(disableSurveyForTime := DisableUntil(timeToDisable, now))
    case Some(Remind) => store.(remindMeLater := now + timeToRemind)
    case Some(Never) => store.(doNotShowAgain := true)
    case None => store.(remindMeLater := now + timeToRemind)
  }

  /** After "Don't Show Again" the banner is never due. */
  lemma NeverSilencesForever(store: SurveyStore, now: int, timeToDisable: int, timeToRemind: int, later: int)
    ensures !BannerDue(AnswerEffect(store, Some(Never), now, timeToDisable, timeToRemind), later)
  {
  }

  /**
   * "Remind Me Later" and dismissing the notification both postpone the
   * banner until `now + timeToRemind`: before that it is not due, and from
   * then on it is due exactly when the other two keys allow it.
   */
  lemma RemindPostpones(store: SurveyStore, answer: Option<SurveyOption>, now: int,
                        timeToDisable: int, timeToRemind: int, later: int)
    requires answer == Some(Remind) || answer == None
    ensures var after := AnswerEffect(store, answer, now, timeToDisable, timeToRemind);
            && (later < now + timeToRemind ==> !BannerDue(after, later))
            && (later >= now + timeToRemind ==>
                  (BannerDue(after, later) <==> !store.doNotShowAgain && 0 <= store.disableSurveyForTime <= later))
  {
  }

  /**
   * Taking the survey disables the banner: for good when the disable time is
   * negative, else until `now + timeToDisable`, after which it is due again
   * when the other keys allow it.
   */
  lemma TakeDisables(store: SurveyStore, now: int, timeToDisable: int, timeToRemind: int, later: int)
    ensures var after := AnswerEffect(store, Some(Take), now, timeToDisable, timeToRemind);
            && (timeToDisable < 0 ==> !BannerDue(after, later))
            && (timeToDisable >= 0 && later < now + timeToDisable ==> !BannerDue(after, later))
            && (timeToDisable >= 0 && now >= 0 && later >= now + timeToDisable ==>
                  (BannerDue(after, later) <==> !store.doNotShowAgain && store.remindMeLater <= later))
  {
  }

  /** Each answer touches one key only. */
  lemma AnswerTouchesOneKey(store: SurveyStore, answer: Option<SurveyOption>, now: int, timeToDisable: int, timeToRemind: int)
    ensures var after := AnswerEffect(store, answer, now, timeToDisable, timeToRemind);
            && (answer != Some(Never) ==> after.doNotShowAgain == store.doNotShowAgain)
            && (answer == Some(Take) || answer == Some(Never) ==> after.remindMeLater == store.remindMeLater)
            && (answer != Some(Take) ==> after.disableSurveyForTime == store.disableSurveyForTime)
  {
  }

  class ExtensionSurvey {
    var timeToShowSurvey: int
    var timeToDisableSurvey: int
    var timeToRemindMeLater: int
    var needToShow: bool
    /** Whether the periodic banner check has been started. */
    var checkSurveyInterval: bool
    /** Whether a survey notification is scheduled. */
    var showSurveyTimeout: bool
    /** The persisted survey keys. */
    var store: SurveyStore

    /**
     * Arguments that are missing or 0 take the defaults; the user is in the
     * sample when `randomSample` (uniform over 1..100) is at most the percentage.
     */
    constructor (timeToShow: Option<int>, samplePercentage: Option<int>, timeToDisable: Option<int>,
                 timeToRemind: Option<int>, randomSample: int, persisted: SurveyStore)
      requires 1 <= randomSample <= 100
      ensures timeToShowSurvey == OrDefault(timeToShow, TimeToShowSurvey)
      ensures needToShow <==> randomSample <= OrDefault(samplePercentage, SamplePercentage)
      ensures timeToDisableSurvey == OrDefault(timeToDisable, TimeToDisableSurvey)
      ensures timeToRemindMeLater == OrDefault(timeToRemind, TimeToRemindMeLater)
      ensures !checkSurveyInterval && !showSurveyTimeout && store == persisted
    {
      timeToShowSurvey := OrDefault(timeToShow, TimeToShowSurvey);
      needToShow := randomSample <= OrDefault(samplePercentage, SamplePercentage);
      timeToDisableSurvey := OrDefault(timeToDisable, TimeToDisableSurvey);
      timeToRemindMeLater := OrDefault(timeToRemind, TimeToRemindMeLater);
      checkSurveyInterval := false;
      showSurveyTimeout := false;
      store := persisted;
    }

    /** `shouldShowBanner`: reads the three keys in turn and stops at the first that rules the banner out. */
    method ShouldShowBanner(now: int) returns (show: bool)
      ensures show == BannerDue(store, now)
    {
      if store.doNotShowAgain {
        return false;
      }
      if store.remindMeLater > now {
        return false;
      }
      if store.disableSurveyForTime < 0 || store.disableSurveyForTime > now {
        return false;
      }
      return true;
    }

    /** `activate`: starts the periodic check once, and only for a user in the sample. */
    method Activate()
      modifies this
      ensures checkSurveyInterval == (old(checkSurveyInterval) || needToShow)
      ensures timeToShowSurvey == old(timeToShowSurvey) && needToShow == old(needToShow)
      ensures showSurveyTimeout == old(showSurveyTimeout) && store == old(store)
      ensures timeToDisableSurvey == old(timeToDisableSurvey) && timeToRemindMeLater == old(timeToRemindMeLater)
    {
      if needToShow && !checkSurveyInterval {
        checkSurveyInterval := true;
      }
    }

    /** One run of the periodic check: schedules the notification when the banner is due, none is pending and the workspace is a project. */
    method CheckTick(now: int, validProject: bool)
      modifies this
      ensures showSurveyTimeout == (old(showSurveyTimeout) || (BannerDue(store, now) && validProject))
      ensures store == old(store) && timeToShowSurvey == old(timeToShowSurvey) && needToShow == old(needToShow)
      ensures checkSurveyInterval == old(checkSurveyInterval)
      ensures timeToDisableSurvey == old(timeToDisableSurvey) && timeToRemindMeLater == old(timeToRemindMeLater)
    {
      var due := ShouldShowBanner(now);
      if !due {
        return;
      }
      if !showSurveyTimeout && validProject {
        showSurveyTimeout := true;
      }
    }

    /** `openSurveyLink`: records until when the survey stays disabled (opening the link itself is not modelled). */
    method OpenSurveyLink(now: int)
      modifies this
      ensures store == old(store).(disableSurveyForTime := DisableUntil(timeToDisableSurvey, now))
      ensures timeToShowSurvey == old(timeToShowSurvey) && needToShow == old(needToShow)
      ensures checkSurveyInterval == old(checkSurveyInterval) && showSurveyTimeout == old(showSurveyTimeout)
      ensures timeToDisableSurvey == old(timeToDisableSurvey) && timeToRemindMeLater == old(timeToRemindMeLater)
    {
      var disableSurveyForTime := if timeToDisableSurvey < 0 then timeToDisableSurvey else now + timeToDisableSurvey;
      store := store.(disableSurveyForTime := disableSurveyForTime);
    }

    /**
     * `showSurvey`, once the notification has been answered (`None` when it
     * was dismissed): clears the pending notification, applies the answer and
     * waits two weeks before the next one.
     */
    method ShowSurvey(answer: Option<SurveyOption>, now: int)
      modifies this
      ensures store == AnswerEffect(old(store), answer, now, timeToDisableSurvey, timeToRemindMeLater)
      ensures !showSurveyTimeout && timeToShowSurvey == TimeToRemindMeLater
      ensures needToShow == old(needToShow) && checkSurveyInterval == old(checkSurveyInterval)
      ensures timeToDisableSurvey == old(timeToDisableSurvey) && timeToRemindMeLater == old(timeToRemindMeLater)
    {
      if showSurveyTimeout {
        showSurveyTimeout := false;
      }
      match answer {
        case Some(Take) =>
          OpenSurveyLink(now);
        case Some(Remind) =>
          store := store.(remindMeLater := now + timeToRemindMeLater);
        case Some(Never) =>
          store := store.(doNotShowAgain := true);
        case None =>
          store := store.(remindMeLater := now + timeToRemindMeLater);
      }
      timeToShowSurvey := TimeToRemindMeLater;
    }
  }
}
