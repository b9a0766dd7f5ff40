/** A leaf that is handed back too late.  The machine outputs its leaf after every new-view message,
    and the pacemaker hands it back with the leaf's own certificate when it gets to that output
    (pacemaker/src/pacemaker.rs:180-188).  By then the machine may hold a higher certificate,
    which it then forgets. */
module StaleLeaf {
  import opened HsData
  import opened StorageModel
  import opened SafetyMachine
  import opened ReplicaInvariants
  import MC = MachineClass

  const SIGNED := TreeNode([], 1, Hash(INIT_NODE), INIT_QC)
  const STALE := TreeNode([7], 5, Hash(INIT_NODE), INIT_QC)
  const QC := GenericQC(1, Hash(SIGNED), Threshold(SIGNED))

  /** The leader signs a node, proposes on the initial node and is sent two new-view messages, the
      second with the certificate of the node it had signed. */
  const STALE_RUN: seq<Event> := [RecvProposal(SIGNED), RaiseView(5), NewTx([7]), RecvNewView(INIT_QC), RecvNewView(QC)]

  lemma FirstProposal()
    ensures var s := OnRecvProposal(InitStorage(), SIGNED);
            && s.nodes == map[Hash(INIT_NODE) := INIT_NODE, Hash(SIGNED) := SIGNED]
            && s.state.leaf == INIT_NODE && s.state.qcHigh == INIT_QC && s.state.view == 0
  {
    assert Zeroed !in InitStorage().nodes[Hash(SIGNED) := SIGNED];
  }

  lemma StaleSteps()
    ensures var m1 := Step(InitMachine(), 4, 0, RecvProposal(SIGNED)); var m2 := Step(m1, 4, 0, RaiseView(5));
            var m3 := Step(m2, 4, 0, NewTx([7])); var m4 := Step(m3, 4, 0, RecvNewView(INIT_QC)); var m5 := Step(m4, 4, 0, RecvNewView(QC));
            && Tame(4, InitMachine(), RecvProposal(SIGNED)) && Tame(4, m1, RaiseView(5)) && Tame(4, m2, NewTx([7]))
            && Tame(4, m3, RecvNewView(INIT_QC)) && Tame(4, m4, RecvNewView(QC))
            && m4 == m3 && m3.storage.state.leaf == STALE && m5.storage.state.qcHigh.node == Hash(SIGNED)
  {
    FirstProposal();
    hide OnRecvProposal, Accepts;
  }

  lemma StaleRun()
    ensures TameRun(4, 0, STALE_RUN) && Run(4, 0, STALE_RUN).storage.state.qcHigh.node == Hash(SIGNED)
    ensures Run(4, 0, STALE_RUN[..3]).storage.state.leaf == STALE
    ensures Run(4, 0, STALE_RUN[..4]) == Step(Run(4, 0, STALE_RUN[..3]), 4, 0, RecvNewView(INIT_QC)) == Run(4, 0, STALE_RUN[..3])
  {
    hide Run, Step, Tame;
    var events := STALE_RUN;
    FreshRun(4, 0, events);
    RunOneMore(4, 0, events, 0);
    RunOneMore(4, 0, events, 1);
    RunOneMore(4, 0, events, 2);
    RunOneMore(4, 0, events, 3);
    RunOneMore(4, 0, events, 4);
    assert events[..5] == events;
    StaleSteps();
    forall k | 0 <= k < 5 ensures Tame(4, Run(4, 0, events[..k]), events[k]) {
      assert k == 0 || k == 1 || k == 2 || k == 3 || k == 4;
    }
  }

  /** The fourth event outputs the stale leaf; handing it back after the fifth lowers the highest
      certificate. */
  lemma StaleLeafLowersQcHigh()
    ensures TameRun(4, 0, STALE_RUN)
    ensures MC.OutcomeOf(Run(4, 0, STALE_RUN[..3]), None, 4, 0, MC.RecvNewViewMsg(INIT_QC)) == MC.Fine(MC.UpdateQCHigh(STALE))
    ensures var s := Run(4, 0, STALE_RUN).storage;
            HeightOf(OnUpdateQcHighReady(s, STALE).state.qcHigh.node) < HeightOf(s.state.qcHigh.node)
  {
    hide Run, TameRun, Inv, OnUpdateQcHighReady;
    StaleRun();
    RunKeepsInv(4, 0, STALE_RUN);
    HandingBackLowersQcHighIff(Run(4, 0, STALE_RUN).storage, STALE);
  }
}
