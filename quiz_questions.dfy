/**
 * The static quiz bank of frontend/data/quiz_questions.ts: the `Question`
 * record, the `quizData` constant (one list per region) and the
 * well-formedness every local question is expected to have.
 */
module QuizQuestions {
  import opened Regions
  import opened Sequences

  /** A multiple-choice question; its `text` doubles as the de-duplication key for mastery credit. */
  datatype Question = Question(text: string, options: seq<string>, answer: string, explanation: string)

  /** Four pairwise distinct options, the answer among them, non-empty text and explanation. */
  predicate WellFormedQuestion(q: Question) {
    && |q.options| == 4
    && Distinct(q.options)
    && q.answer in q.options
    && |q.text| > 0
    && |q.explanation| > 0
  }

  /** A region's list: at least `minimum` questions, each well formed, with pairwise distinct texts. */
  predicate WellFormedBank(qs: seq<Question>, minimum: nat) {
    && |qs| >= minimum
    && (forall i :: 0 <= i < |qs| ==> WellFormedQuestion(qs[i]))
    && (forall i, j :: 0 <= i < j < |qs| ==> qs[i].text != qs[j].text)
  }

  const Back0: Question := Question(
    "Which structure protects the spinal cord?",
    ["Vertebral column", "Ribs", "Skull", "Scapula"],
    "Vertebral column",
    "The vertebral column surrounds and protects the spinal cord as it descends through the vertebral canal.")

  const Back1: Question := Question(
    "How many vertebrae are typically found in the human spine?",
    ["24", "26", "33", "35"],
    "33",
    "There are 33 vertebrae in total—7 cervical, 12 thoracic, 5 lumbar, 5 fused sacral, and 4 fused coccygeal.")

  const Back2: Question := Question(
    "Which group of muscles helps extend and stabilize the spine?",
    ["Erector spinae", "Deltoid", "Pectoralis major", "Trapezius"],
    "Erector spinae",
    "The erector spinae group (iliocostalis, longissimus, spinalis) maintains posture and extends the spine.")

  const Back3: Question := Question(
    "Which region of the vertebral column supports the head?",
    ["Cervical", "Thoracic", "Lumbar", "Sacral"],
    "Cervical",
    "The cervical region supports and moves the head, with the atlas and axis enabling nodding and rotation.")

  const BackQuestions: seq<Question> := [Back0, Back1, Back2, Back3]

  const Thorax0: Question := Question(
    "Which organ is responsible for gas exchange?",
    ["Heart", "Lungs", "Liver", "Stomach"],
    "Lungs",
    "Gas exchange occurs in the alveoli of the lungs, where oxygen enters blood and carbon dioxide exits.")

  const Thorax1: Question := Question(
    "What structure separates the thorax from the abdomen?",
    ["Diaphragm", "Sternum", "Clavicle", "Rib cage"],
    "Diaphragm",
    "The diaphragm is a dome-shaped muscle that separates the thoracic and abdominal cavities and aids breathing.")

  const Thorax2: Question := Question(
    "Which bones form the protective cage of the thorax?",
    ["Ribs, sternum, thoracic vertebrae", "Clavicle, scapula, ribs", "Sternum, scapula, humerus", "Pelvis, ribs, sternum"],
    "Ribs, sternum, thoracic vertebrae",
    "These bones form the rib cage, protecting the heart and lungs from external injury.")

  const Thorax3: Question := Question(
    "Which nerve controls contraction of the diaphragm?",
    ["Phrenic nerve", "Vagus nerve", "Intercostal nerve", "Sympathetic trunk"],
    "Phrenic nerve",
    "The phrenic nerve (C3–C5) innervates the diaphragm and is essential for respiration.")

  const ThoraxQuestions: seq<Question> := [Thorax0, Thorax1, Thorax2, Thorax3]

  const Abdomen0: Question := Question(
    "Which organ produces bile?",
    ["Stomach", "Pancreas", "Liver", "Spleen"],
    "Liver",
    "The liver produces bile, which emulsifies fats and aids digestion in the small intestine.")

  const Abdomen1: Question := Question(
    "Which structure connects the small and large intestines?",
    ["Cecum", "Appendix", "Rectum", "Pylorus"],
    "Cecum",
    "The ileum of the small intestine opens into the cecum, the first part of the large intestine.")

  const Abdomen2: Question := Question(
    "Which muscle forms the main part of the anterior abdominal wall?",
    ["Rectus abdominis", "External oblique", "Psoas major", "Transversus thoracis"],
    "Rectus abdominis",
    "The rectus abdominis is a paired muscle running vertically along the abdomen; it flexes the trunk.")

  const Abdomen3: Question := Question(
    "Which vein carries nutrient-rich blood from the digestive organs to the liver?",
    ["Portal vein", "Inferior vena cava", "Hepatic vein", "Splenic vein"],
    "Portal vein",
    "The portal vein delivers nutrient-rich blood from the intestines to the liver for processing.")

  const AbdomenQuestions: seq<Question> := [Abdomen0, Abdomen1, Abdomen2, Abdomen3]

  const Pelvis0: Question := Question(
    "Which bone forms part of the pelvic girdle?",
    ["Femur", "Ilium", "Tibia", "Sacrum"],
    "Ilium",
    "The ilium is the broad, upper portion of the hip bone forming part of the pelvis.")

  const Pelvis1: Question := Question(
    "Which joint connects the right and left hip bones anteriorly?",
    ["Pubic symphysis", "Sacroiliac joint", "Coxal joint", "Lumbosacral joint"],
    "Pubic symphysis",
    "The pubic symphysis is a cartilaginous joint uniting the pubic bones at the front of the pelvis.")

  const Pelvis2: Question := Question(
    "Which muscle forms part of the pelvic floor?",
    ["Levator ani", "Rectus abdominis", "Gluteus maximus", "Psoas major"],
    "Levator ani",
    "The levator ani supports pelvic organs and controls defecation and urination.")

  const Pelvis3: Question := Question(
    "Which organ stores urine within the pelvis?",
    ["Bladder", "Rectum", "Uterus", "Prostate"],
    "Bladder",
    "The urinary bladder temporarily stores urine before it exits via the urethra.")

  const PelvisQuestions: seq<Question> := [Pelvis0, Pelvis1, Pelvis2, Pelvis3]

  const Perineum0: Question := Question(
    "The perineum is located between which two structures?",
    ["Anus and genitals", "Liver and stomach", "Heart and lungs", "Spine and ribs"],
    "Anus and genitals",
    "The perineum lies between the pubic symphysis and coccyx, encompassing the anus and external genitals.")

  const Perineum1: Question := Question(
    "Which muscles control defecation and urination?",
    ["Sphincter muscles", "Rectus muscles", "Oblique muscles", "Adductor muscles"],
    "Sphincter muscles",
    "Sphincter muscles in the perineum regulate passage of urine and feces.")

  const Perineum2: Question := Question(
    "Which nerve supplies most perineal structures?",
    ["Pudendal nerve", "Femoral nerve", "Sciatic nerve", "Obturator nerve"],
    "Pudendal nerve",
    "The pudendal nerve supplies motor and sensory innervation to the perineum.")

  const Perineum3: Question := Question(
    "Which structure forms the posterior part of the perineum?",
    ["Anal triangle", "Urogenital triangle", "Ischiorectal fossa", "Pubic arch"],
    "Anal triangle",
    "The anal triangle forms the posterior half of the perineum and contains the anal canal.")

  const PerineumQuestions: seq<Question> := [Perineum0, Perineum1, Perineum2, Perineum3]

  const Head0: Question := Question(
    "Which bone protects the brain?",
    ["Femur", "Humerus", "Skull", "Pelvis"],
    "Skull",
    "The skull encases the brain, protecting it from impact and supporting sensory structures.")

  const Head1: Question := Question(
    "Which joint allows movement of the lower jaw?",
    ["Temporomandibular joint", "Atlanto-occipital joint", "Zygomatic arch", "Cranial suture"],
    "Temporomandibular joint",
    "The temporomandibular joint connects the mandible to the temporal bone, allowing chewing and speaking.")

  const Head2: Question := Question(
    "Which nerve provides motor control to the facial muscles?",
    ["Facial nerve (VII)", "Trigeminal nerve (V)", "Optic nerve (II)", "Vagus nerve (X)"],
    "Facial nerve (VII)",
    "The facial nerve controls muscles of facial expression and conveys taste from the anterior tongue.")

  const Head3: Question := Question(
    "Which bones form the roof of the oral cavity?",
    ["Maxilla and palatine bones", "Mandible and zygomatic bones", "Frontal and temporal bones", "Ethmoid and sphenoid bones"],
    "Maxilla and palatine bones",
    "The hard palate consists of the palatine processes of the maxilla and the horizontal plates of the palatine bones.")

  const HeadQuestions: seq<Question> := [Head0, Head1, Head2, Head3]

  const Neck0: Question := Question(
    "Which structure passes through the neck?",
    ["Spinal cord", "Femoral artery", "Pancreas", "Lungs"],
    "Spinal cord",
    "The spinal cord travels through the cervical vertebral canal, connecting the brain to the body.")

  const Neck1: Question := Question(
    "Which gland lies anterior to the trachea in the neck?",
    ["Thyroid gland", "Parotid gland", "Pineal gland", "Adrenal gland"],
    "Thyroid gland",
    "The thyroid gland sits just below the larynx and produces hormones regulating metabolism.")

  const Neck2: Question := Question(
    "Which muscle divides the neck into anterior and posterior triangles?",
    ["Sternocleidomastoid", "Trapezius", "Scalenes", "Platysma"],
    "Sternocleidomastoid",
    "The sternocleidomastoid runs from the sternum and clavicle to the mastoid process, dividing the neck regions.")

  const Neck3: Question := Question(
    "Which arteries supply the head and neck with oxygenated blood?",
    ["Carotid arteries", "Radial arteries", "Femoral arteries", "Subclavian veins"],
    "Carotid arteries",
    "The common carotid arteries branch into internal and external carotids, supplying the brain and face.")

  const NeckQuestions: seq<Question> := [Neck0, Neck1, Neck2, Neck3]

  const UpperLimb0: Question := Question(
    "Which bone is in the upper limb?",
    ["Femur", "Humerus", "Tibia", "Fibula"],
    "Humerus",
    "The humerus forms the upper arm, articulating with the scapula at the shoulder and ulna at the elbow.")

  const UpperLimb1: Question := Question(
    "Which joint connects the upper limb to the trunk?",
    ["Shoulder joint", "Elbow joint", "Wrist joint", "Sternoclavicular joint"],
    "Shoulder joint",
    "The shoulder (glenohumeral) joint connects the humerus to the scapula, allowing wide arm movement.")

  const UpperLimb2: Question := Question(
    "Which artery supplies the arm with blood?",
    ["Brachial artery", "Femoral artery", "Carotid artery", "Radial artery"],
    "Brachial artery",
    "The brachial artery is the main blood supply of the arm, continuing from the axillary artery.")

  const UpperLimb3: Question := Question(
    "Which nerve controls most of the hand muscles?",
    ["Ulnar nerve", "Sciatic nerve", "Median nerve", "Axillary nerve"],
    "Ulnar nerve",
    "The ulnar nerve supplies the intrinsic muscles of the hand responsible for fine motor control.")

  const UpperLimbQuestions: seq<Question> := [UpperLimb0, UpperLimb1, UpperLimb2, UpperLimb3]

  const LowerLimb0: Question := Question(
    "Which muscle is primarily used for walking?",
    ["Biceps brachii", "Quadriceps femoris", "Deltoid", "Trapezius"],
    "Quadriceps femoris",
    "The quadriceps femoris extends the knee, essential for standing and walking.")

  const LowerLimb1: Question := Question(
    "Which artery supplies the lower limb?",
    ["Femoral artery", "Brachial artery", "Radial artery", "Carotid artery"],
    "Femoral artery",
    "The femoral artery continues from the external iliac artery to supply oxygenated blood to the leg.")

  const LowerLimb2: Question := Question(
    "Which nerve is the largest in the body?",
    ["Sciatic nerve", "Femoral nerve", "Obturator nerve", "Tibial nerve"],
    "Sciatic nerve",
    "The sciatic nerve originates from the sacral plexus and runs down the posterior thigh to the leg.")

  const LowerLimb3: Question := Question(
    "Which bone forms the heel of the foot?",
    ["Calcaneus", "Talus", "Navicular", "Cuboid"],
    "Calcaneus",
    "The calcaneus, or heel bone, is the largest tarsal bone and supports body weight during standing and walking.")

  const LowerLimbQuestions: seq<Question> := [LowerLimb0, LowerLimb1, LowerLimb2, LowerLimb3]

  /** `quizData`: a question list for every region. */
  const QuizData: map<Region, seq<Question>> := map[
    Back := BackQuestions,
    Thorax := ThoraxQuestions,
    Abdomen := AbdomenQuestions,
    Pelvis := PelvisQuestions,
    Perineum := PerineumQuestions,
    Head := HeadQuestions,
    Neck := NeckQuestions,
    UpperLimb := UpperLimbQuestions,
    LowerLimb := LowerLimbQuestions
  ]

  /** Every region has a list in the bank. */
  lemma QuizDataCoversEveryRegion(r: Region)
    ensures r in QuizData
  {
  }

  /** Every region's list is well formed and holds at least three distinct dedup keys. */
  lemma QuizDataWellFormed(r: Region)
    ensures r in QuizData && WellFormedBank(QuizData[r], 3)
  {
    match r
    case Back => BackBankWellFormed();
    case Thorax => ThoraxBankWellFormed();
    case Abdomen => AbdomenBankWellFormed();
    case Pelvis => PelvisBankWellFormed();
    case Perineum => PerineumBankWellFormed();
    case Head => HeadBankWellFormed();
    case Neck => NeckBankWellFormed();
    case UpperLimb => UpperLimbBankWellFormed();
    case LowerLimb => LowerLimbBankWellFormed();
  }

  lemma BackBankWellFormed()
    ensures WellFormedBank(BackQuestions, 3)
  {
  }

  lemma ThoraxBankWellFormed()
    ensures WellFormedBank(ThoraxQuestions, 3)
  {
  }

  lemma AbdomenBankWellFormed()
    ensures WellFormedBank(AbdomenQuestions, 3)
  {
  }

  lemma PelvisBankWellFormed()
    ensures WellFormedBank(PelvisQuestions, 3)
  {
  }

  lemma PerineumBankWellFormed()
    ensures WellFormedBank(PerineumQuestions, 3)
  {
  }

  lemma HeadBankWellFormed()
    ensures WellFormedBank(HeadQuestions, 3)
  {
  }

  lemma NeckBankWellFormed()
    ensures WellFormedBank(NeckQuestions, 3)
  {
  }

  lemma UpperLimbBankWellFormed()
    ensures WellFormedBank(UpperLimbQuestions, 3)
  {
  }

  lemma LowerLimbBankWellFormed()
    ensures WellFormedBank(LowerLimbQuestions, 3)
  {
  }

  /** In a well-formed question exactly one option equals the answer. */
  lemma ExactlyOneCorrectOption(q: Question)
    requires WellFormedQuestion(q)
    ensures exists i :: 0 <= i < |q.options| && q.options[i] == q.answer
    ensures forall i, j :: 0 <= i < |q.options| && 0 <= j < |q.options| && q.options[i] == q.answer && q.options[j] == q.answer ==> i == j
  {
  }
}
