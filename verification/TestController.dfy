/** The emergency-light test with its real variables: the timer's registers, the two file
    statics and the event queue. */
module TestControllers {
  import opened Types
  import opened EmergencyLight

  const WORD := 0x1_0000_0000

  class TestController {
    const board: Board
    var counter: nat            // the hardware counter
    var cntHigh: nat
    var cntLow: uint32
    var alarmHigh: nat
    var alarmLow: uint32
    var running: bool
    var timerQueue: seq<TimerEvent>
    var endOfTest: bool
    var testPin: bool           // level of the test output
    var status: uint8           // status_el_gi
    var received: nat           // receiveContext

    ghost function Model(): State
      reads this
    {
      State(counter, cntHigh * WORD + cntLow, alarmHigh * WORD + alarmLow,
            running, timerQueue, endOfTest, testPin, status)
    }

    ghost predicate Valid()
      reads this
    {
      board.Sane() && Reachable(board, Model())
    }

    /** State after gpio_ini and app_timer. */
    constructor (b: Board)
      requires b.Sane()
      ensures Valid() && board == b && Model() == Init(b) && received == 0
    {
      board := b;
      counter, cntHigh, cntLow := 0, 0, 0;
      alarmHigh := b.Interval() / WORD;
      alarmLow := b.Interval() % WORD;
      running, timerQueue, endOfTest := true, [], true;
      testPin, status, received := false, 0, 0;
      new;
      assert Model() == After(b, Init(b), []);
    }

    /** eve_timer_trigger: the new alarm is counted from the latched value. */
    method Trigger()
      modifies `alarmHigh, `alarmLow, `running, `endOfTest
      ensures Model() == old(Model()).(alarm := old(Model()).latched + board.Timeout(),
                                       running := true, endOfTest := false)
    {
      var value := cntHigh * WORD + cntLow + board.Timeout();
      alarmHigh := value / WORD;
      alarmLow := value % WORD;
      running := true;
      endOfTest := false;
    }

    /** app_emergency_light_test_button */
    method TestButton(on: bool)
      requires Valid()
      modifies this
      ensures Valid()
      ensures Model() == Step(board, old(Model()), if on then TestOn else TestOff)
      ensures testPin == on && status == if on then 1 else 0
      ensures received == old(received)
    {
      ReachableStep(board, Model(), if on then TestOn else TestOff);
      if on {
        testPin := true;
        status := 1;
        Trigger();
      } else {
        testPin := false;
        status := 0;
      }
    }

    /** The hub's message callback, as far as it acts. */
    method ReceiveMessage(readable: bool, text: string)
      requires Valid()
      modifies this
      ensures Valid()
      ensures Model() == if readable && text == "TEST ON" then Step(board, old(Model()), TestOn)
                         else if readable && text == "TEST OFF" then Step(board, old(Model()), TestOff)
                         else old(Model())
      ensures readable && text == "TEST ON" ==> testPin && status == 1 && running
      ensures readable && text == "TEST OFF" ==> !testPin && status == 0
      ensures received == old(received) + 1
    {
      if readable {
        if |text| == |"TEST ON"| && text == "TEST ON" {
          TestButton(true);
        } else if |text| == |"TEST OFF"| && text == "TEST OFF" {
          TestButton(false);
        }
      }
      received := received + 1;
    }

    /** timer_group0_isr for timer 0. */
    method Isr()
      modifies this
      ensures Model() == Interrupt(board, old(Model()))
    {
      cntHigh := counter / WORD;
      cntLow := counter % WORD;
      var value := cntHigh * WORD + cntLow;
      var evt := TimerEvent(TEST_WITHOUT_RELOAD, TIMER_0, value);
      value := value + board.Interval();
      alarmHigh := value / WORD;
      alarmLow := value % WORD;
      running := false;
      if |timerQueue| < board.depth {
        timerQueue := timerQueue + [evt];
      }
    }

    /** The timer hardware: count if running, interrupt on reaching the alarm. */
    method Tick()
      requires Valid()
      modifies this
      ensures Valid()
      ensures Model() == Step(board, old(Model()), Event.Tick)
    {
      ReachableStep(board, Model(), Event.Tick);
      if running {
        counter := counter + 1;
        if counter == alarmHigh * WORD + alarmLow {
          Isr();
        }
      }
    }

    /** One turn of the event task; it stays blocked on an empty queue. */
    method HandleEvent()
      requires Valid()
      modifies this
      ensures Valid()
      ensures Model() == Step(board, old(Model()), Handle)
    {
      ReachableStep(board, Model(), Handle);
      if timerQueue != [] {
        var evt := timerQueue[0];
        timerQueue := timerQueue[1..];
        if evt.idx == TIMER_0 {
          cntHigh := counter / WORD;
          cntLow := counter % WORD;
          endOfTest := true;
        }
      }
    }

    /** app_el_test_manager, called once in every round of the LED task. */
    method Manage()
      requires Valid()
      modifies this
      ensures Valid()
      ensures Model() == Step(board, old(Model()), Event.Manage)
    {
      ReachableStep(board, Model(), Event.Manage);
      if endOfTest {
        TestButton(false);
      }
    }

    /** What the sampling task reads. */
    method ReadStatus() returns (r: uint8)
      requires Valid()
      ensures r == if testPin then 1 else 0
      ensures r == 1 ==> running || timerQueue != [] || endOfTest
    {
      LampOffIsPending(board, Model());
      r := status;
    }

    /** Any run of the state machine, carried out on the registers. */
    method Run(es: seq<Event>)
      requires Valid()
      modifies this
      ensures Valid()
      ensures Model() == After(board, old(Model()), es)
    {
      var i := 0;
      while i < |es|
        invariant 0 <= i <= |es|
        invariant Valid()
        invariant After(board, Model(), es[i..]) == After(board, old(Model()), es)
      {
        assert es[i..][1..] == es[i + 1..];
        match es[i] {
          case TestOn => TestButton(true);
          case TestOff => TestButton(false);
          case Tick => Tick();
          case Handle => HandleEvent();
          case Manage => Manage();
        }
        i := i + 1;
      }
    }
  }
}
