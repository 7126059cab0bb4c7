/** The Cluster API objects the batchers read and write. */
module Machines {
  import opened Common

  const MEMBER_LABEL := "node.cluster.x-k8s.io/karpenter-member"
  const MACHINE_ANNOTATION := "cluster.x-k8s.io/machine"
  // Names defined by Cluster API (api/v1beta1), which is not part of this model.
  const DEPLOYMENT_LABEL := "cluster.x-k8s.io/deployment-name"
  const DELETE_ANNOTATION := "cluster.x-k8s.io/delete-machine"

  datatype Key = Key(ns: string, name: string)

  datatype Machine = Machine(
    labels: map<string, string>,
    annotations: map<string, string>,
    deleting: bool,               // has a deletion timestamp
    providerID: Option<string>)
  {
    /** Claimed by Karpenter. */
    predicate Member() { MEMBER_LABEL in labels }
    /** Carries the delete-machine annotation. */
    predicate Marked() { DELETE_ANNOTATION in annotations }
    /** Counts against `spec.replicas` and is not asked to go. */
    predicate Usable() { !Marked() && !deleting }
    /** What the create batch counts and picks. */
    predicate Unclaimed() { !Member() && Usable() }

    predicate OwnedBy(deployment: string) {
      DEPLOYMENT_LABEL in labels && labels[DEPLOYMENT_LABEL] == deployment
    }

    function Labelled(): Machine { this.(labels := labels[MEMBER_LABEL := ""]) }
    function Unlabelled(): Machine { this.(labels := labels - {MEMBER_LABEL}) }
    /** The Machine `AddDeleteAnnotation` writes: an existing mark is kept. */
    function WithMark(stamp: string): Machine {
      if Marked() then this else this.(annotations := annotations[DELETE_ANNOTATION := stamp])
    }
    function WithoutMark(): Machine { this.(annotations := annotations - {DELETE_ANNOTATION}) }
  }

  /** Claiming sets the member label, to the empty text, and changes nothing else; giving
      up the claim takes it off and changes nothing else. */
  lemma ClaimTouchesOnlyItsLabel(m: Machine, key: string)
    ensures m.Labelled().Member() && m.Labelled().labels[MEMBER_LABEL] == "" && !m.Unlabelled().Member()
    ensures key != MEMBER_LABEL ==>
      && (key in m.Labelled().labels <==> key in m.labels) && (key in m.Unlabelled().labels <==> key in m.labels)
      && (key in m.labels ==> m.Labelled().labels[key] == m.Unlabelled().labels[key] == m.labels[key])
    ensures forall x | x in {m.Labelled(), m.Unlabelled()} ::
      x.annotations == m.annotations && x.deleting == m.deleting && x.providerID == m.providerID
  {
  }

  /** Marking sets the mark if there is none and changes nothing else; so does unmarking. */
  lemma MarkTouchesOnlyItself(m: Machine, stamp: string, key: string)
    ensures m.WithMark(stamp).Marked() && !m.WithoutMark().Marked()
    ensures m.WithMark(stamp).annotations[DELETE_ANNOTATION] ==
      if m.Marked() then m.annotations[DELETE_ANNOTATION] else stamp
    ensures key != DELETE_ANNOTATION ==>
      && (key in m.WithMark(stamp).annotations <==> key in m.annotations)
      && (key in m.WithoutMark().annotations <==> key in m.annotations)
      && (key in m.annotations ==>
            m.WithMark(stamp).annotations[key] == m.WithoutMark().annotations[key] == m.annotations[key])
    ensures forall x | x in {m.WithMark(stamp), m.WithoutMark()} ::
      x.labels == m.labels && x.deleting == m.deleting && x.providerID == m.providerID
  {
  }

  /** Claiming does not move a Machine to another MachineDeployment. */
  lemma LabelledKeepsOwner(m: Machine, deployment: string)
    ensures m.Labelled().OwnedBy(deployment) == m.OwnedBy(deployment)
  {
  }

  /** Undoing a mark restores the Machine exactly when the mark was new. */
  lemma UndoRestoresIff(m: Machine, stamp: string)
    ensures m.WithMark(stamp).WithoutMark() == m <==> !m.Marked()
  {
  }
}
